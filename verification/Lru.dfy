/** common/db/memorydb/lru_cache.go as functions on a recency list and its values. */
module Lru {
  import opened Quorum

  /** Keys from the most to the least recently used, and the value of each. */
  datatype Cache<K, V> = Cache(order: seq<K>, vals: map<K, V>)

  datatype Op<K, V> = Get(key: K) | Put(key: K, value: V) | Delete(key: K)

  function Empty<K, V>(): Cache<K, V> {
    Cache([], map[])
  }

  /** The list without its element `k`. */
  function Without<K(==)>(s: seq<K>, k: K): seq<K> {
    if s == [] then [] else if s[0] == k then s[1..] else [s[0]] + Without(s[1..], k)
  }

  function MoveToFront<K(==)>(s: seq<K>, k: K): seq<K> {
    [k] + Without(s, k)
  }

  function Evict<K, V>(c: Cache<K, V>): Cache<K, V> {
    if c.order == [] then c
    else Cache(c.order[..|c.order| - 1], c.vals - {c.order[|c.order| - 1]})
  }

  function Step<K, V>(capacity: int, c: Cache<K, V>, op: Op<K, V>): Cache<K, V> {
    match op
    case Get(k) => if k in c.vals then c.(order := MoveToFront(c.order, k)) else c
    case Put(k, v) =>
      if k in c.vals then Cache(MoveToFront(c.order, k), c.vals[k := v])
      else
        var d := Cache([k] + c.order, c.vals[k := v]);
        if |d.order| > capacity then Evict(d) else d
    case Delete(k) => if k in c.vals then Cache(Without(c.order, k), c.vals - {k}) else c
  }

  function Run<K, V>(capacity: int, c: Cache<K, V>, ops: seq<Op<K, V>>): Cache<K, V> {
    if ops == [] then c else Step(capacity, Run(capacity, c, ops[..|ops| - 1]), ops[|ops| - 1])
  }

  // ---------------------------------------------------------------------------
  // Map and list hold the same keys

  predicate NoDuplicates<K(==)>(s: seq<K>) {
    forall i, j :: 0 <= i < j < |s| ==> s[i] != s[j]
  }

  predicate Valid<K, V>(c: Cache<K, V>) {
    && NoDuplicates(c.order)
    && (forall k :: k in c.order ==> k in c.vals) && (forall k :: k in c.vals ==> k in c.order)
  }

  function Room(capacity: int): nat {
    if capacity < 0 then 0 else capacity
  }

  lemma HeadIsUnique<K>(s: seq<K>)
    requires NoDuplicates(s) && s != []
    ensures NoDuplicates(s[1..]) && s[0] !in s[1..]
  {
    var rest := s[1..];
    forall i, j | 0 <= i < j < |rest| ensures rest[i] != rest[j] {
      assert rest[i] == s[i + 1] && rest[j] == s[j + 1];
    }
    forall j | 0 <= j < |rest| ensures rest[j] != s[0] {
      assert rest[j] == s[j + 1];
    }
  }

  lemma {:induction false} WithoutKeys<K>(s: seq<K>, k: K)
    requires NoDuplicates(s)
    ensures NoDuplicates(Without(s, k))
    ensures forall x :: x in Without(s, k) ==> x in s && x != k
    ensures forall x :: x in s && x != k ==> x in Without(s, k)
    ensures |Without(s, k)| == |s| - if k in s then 1 else 0
  {
    if s != [] {
      assert s == [s[0]] + s[1..];
      HeadIsUnique(s);
      WithoutKeys(s[1..], k);
      if s[0] != k {
        ConsNoDuplicates(s[0], Without(s[1..], k));
      }
    }
  }

  lemma ConsNoDuplicates<K>(x: K, s: seq<K>)
    requires NoDuplicates(s) && x !in s
    ensures NoDuplicates([x] + s)
  {
  }

  lemma EvictValid<K, V>(c: Cache<K, V>)
    requires Valid(c)
    ensures Valid(Evict(c))
    ensures c.order != [] ==> forall k :: k in Evict(c).vals <==> k in c.vals && k != c.order[|c.order| - 1]
    ensures forall k :: k in Evict(c).vals ==> Evict(c).vals[k] == c.vals[k]
  {
    if c.order != [] {
      var n := |c.order| - 1;
      assert c.order == c.order[..n] + [c.order[n]];
    }
  }

  lemma PushValid<K, V>(c: Cache<K, V>, k: K, v: V)
    requires Valid(c) && k !in c.vals
    ensures Valid(Cache([k] + c.order, c.vals[k := v]))
  {
    ConsNoDuplicates(k, c.order);
  }

  lemma FrontValid<K, V>(c: Cache<K, V>, k: K)
    requires Valid(c) && k in c.vals
    ensures Valid(c.(order := MoveToFront(c.order, k))) && |MoveToFront(c.order, k)| == |c.order|
  {
    WithoutKeys(c.order, k);
    ConsNoDuplicates(k, Without(c.order, k));
    forall x | x in c.vals
      ensures x in MoveToFront(c.order, k)
    {
      assert x == k || x in Without(c.order, k);
    }
    forall x | x in MoveToFront(c.order, k)
      ensures x in c.vals
    {
      assert x == k || x in Without(c.order, k);
    }
  }

  lemma RemoveValid<K, V>(c: Cache<K, V>, k: K)
    requires Valid(c) && k in c.vals
    ensures Valid(Cache(Without(c.order, k), c.vals - {k})) && |Without(c.order, k)| == |c.order| - 1
  {
    WithoutKeys(c.order, k);
    forall x | x in c.vals - {k}
      ensures x in Without(c.order, k)
    {
      assert x in c.order;
    }
    forall x | x in Without(c.order, k)
      ensures x in c.vals - {k}
    {
      assert x in c.order;
    }
  }

  /** Every operation keeps map and list in step and within the capacity. */
  lemma StepValid<K, V>(capacity: int, c: Cache<K, V>, op: Op<K, V>)
    requires Valid(c) && |c.order| <= Room(capacity)
    ensures Valid(Step(capacity, c, op)) && |Step(capacity, c, op).order| <= Room(capacity)
  {
    match op
    case Get(k) => if k in c.vals { FrontValid(c, k); }
    case Put(k, v) =>
      if k in c.vals {
        FrontValid(c, k);
      } else {
        PushValid(c, k, v);
        EvictValid(Cache([k] + c.order, c.vals[k := v]));
      }
    case Delete(k) => if k in c.vals { RemoveValid(c, k); }
  }

  // ---------------------------------------------------------------------------
  // Against a map that never forgets

  function Ideal<K, V>(ops: seq<Op<K, V>>): map<K, V> {
    if ops == [] then map[]
    else
      var m := Ideal(ops[..|ops| - 1]);
      match ops[|ops| - 1]
      case Get(_) => m
      case Put(k, v) => m[k := v]
      case Delete(k) => m - {k}
  }

  predicate SubMap<K, V(==)>(m: map<K, V>, n: map<K, V>) {
    forall k :: k in m ==> k in n && n[k] == m[k]
  }

  /** Whatever the sequence of operations, the cache is well formed and a hit returns the value last put
      under the key and not deleted since. */
  lemma {:induction false} HitIsLatestPut<K, V>(capacity: int, ops: seq<Op<K, V>>)
    ensures var c := Run(capacity, Empty(), ops);
            Valid(c) && |c.order| <= Room(capacity) && SubMap(c.vals, Ideal(ops))
  {
    if ops != [] {
      var before, op := ops[..|ops| - 1], ops[|ops| - 1];
      HitIsLatestPut(capacity, before);
      var c := Run(capacity, Empty(), before);
      StepValid(capacity, c, op);
      if op.Put? && op.key !in c.vals {
        PushValid(c, op.key, op.value);
        EvictValid(Cache([op.key] + c.order, c.vals[op.key := op.value]));
      }
    }
  }

  // ---------------------------------------------------------------------------
  // Retention

  /** The keys other than `k` that the operations store or hit. */
  function TouchedBesides<K, V>(capacity: int, c: Cache<K, V>, ops: seq<Op<K, V>>, k: K): set<K> {
    if ops == [] then {}
    else
      var before, op := ops[..|ops| - 1], ops[|ops| - 1];
      var seen := TouchedBesides(capacity, c, before, k);
      if op.key != k && (op.Put? || (op.Get? && op.key in Run(capacity, c, before).vals)) then seen + {op.key} else seen
  }

  /** `k` is in the list and everything ahead of it is in `t`. */
  predicate OnlyAhead<K(==)>(s: seq<K>, k: K, t: set<K>) {
    s != [] && (s[0] == k || (s[0] in t && OnlyAhead(s[1..], k, t)))
  }

  lemma {:induction false} OnlyAheadGrows<K>(s: seq<K>, k: K, t: set<K>, u: set<K>)
    requires OnlyAhead(s, k, t) && t <= u
    ensures OnlyAhead(s, k, u)
  {
    if s[0] != k { OnlyAheadGrows(s[1..], k, t, u); }
  }

  lemma {:induction false} OnlyAheadWithout<K>(s: seq<K>, k: K, t: set<K>, x: K)
    requires OnlyAhead(s, k, t) && x != k
    ensures OnlyAhead(Without(s, x), k, t)
  {
    if s[0] != k && s[0] != x {
      OnlyAheadWithout(s[1..], k, t, x);
      assert ([s[0]] + Without(s[1..], x))[1..] == Without(s[1..], x);
    } else if s[0] == k {
      assert ([s[0]] + Without(s[1..], x))[0] == k;
    }
  }

  lemma OnlyAheadCons<K>(s: seq<K>, k: K, t: set<K>, x: K)
    requires OnlyAhead(s, k, t) && x in t
    ensures OnlyAhead([x] + s, k, t)
  {
    assert ([x] + s)[1..] == s;
  }

  /** With fewer than |s| - 1 keys that may be ahead, `k` is not the last of a list without duplicates. */
  lemma {:induction false} NotLast<K>(s: seq<K>, k: K, t: set<K>)
    requires NoDuplicates(s) && OnlyAhead(s, k, t) && |t| < |s| - 1
    ensures s[|s| - 1] != k && OnlyAhead(s[..|s| - 1], k, t)
  {
    if s[0] == k {
      assert s[0] != s[|s| - 1];
    } else {
      var rest := s[1..];
      HeadIsUnique(s);
      OnlyAheadMinus(rest, k, t, s[0]);
      NotLast(rest, k, t - {s[0]});
      OnlyAheadGrows(rest[..|rest| - 1], k, t - {s[0]}, t);
      assert s[..|s| - 1][1..] == rest[..|rest| - 1];
    }
  }

  lemma {:induction false} OnlyAheadMinus<K>(s: seq<K>, k: K, t: set<K>, x: K)
    requires OnlyAhead(s, k, t) && x !in s
    ensures OnlyAhead(s, k, t - {x})
  {
    if s[0] != k {
      OnlyAheadMinus(s[1..], k, t, x);
    }
  }

  lemma {:induction false} OnlyAheadIn<K>(s: seq<K>, k: K, t: set<K>)
    requires OnlyAhead(s, k, t)
    ensures k in s
  {
    if s[0] != k { OnlyAheadIn(s[1..], k, t); }
  }

  /** One operation other than a delete of `k` leaves only touched keys ahead of `k`, and `k` in place. */
  lemma StepRetains<K, V>(capacity: int, c: Cache<K, V>, op: Op<K, V>, k: K, t: set<K>)
    requires Valid(c) && |c.order| <= Room(capacity) && OnlyAhead(c.order, k, t)
    requires op != Op<K, V>.Delete(k)
    requires op.key != k && (op.Put? || (op.Get? && op.key in c.vals)) ==> op.key in t
    requires |t| < capacity
    ensures OnlyAhead(Step(capacity, c, op).order, k, t)
  {
    OnlyAheadIn(c.order, k, t);
    if op.key != k {
      OnlyAheadWithout(c.order, k, t, op.key);
      if op.Put? || (op.Get? && op.key in c.vals) {
        OnlyAheadCons(Without(c.order, op.key), k, t, op.key);
        OnlyAheadCons(c.order, k, t, op.key);
      }
      if op.Put? && op.key !in c.vals {
        PutRetains(capacity, c, op.key, op.value, k, t);
      }
    }
  }

  lemma PutRetains<K, V>(capacity: int, c: Cache<K, V>, key: K, value: V, k: K, t: set<K>)
    requires Valid(c) && key !in c.vals && OnlyAhead([key] + c.order, k, t) && |t| < capacity
    ensures OnlyAhead(Step(capacity, c, Op.Put(key, value)).order, k, t)
  {
    if |c.order| + 1 > capacity {
      PushValid(c, key, value);
      NotLast([key] + c.order, k, t);
    }
  }

  /** A key at the front stays retrievable, with its latest value, as long as it is not deleted and fewer
      than `capacity` distinct other keys are stored or hit. */
  lemma {:induction false} Retention<K, V>(capacity: int, c: Cache<K, V>, ops: seq<Op<K, V>>, k: K)
    requires Valid(c) && |c.order| <= Room(capacity) && c.order != [] && c.order[0] == k
    requires forall i :: 0 <= i < |ops| ==> ops[i] != Op<K, V>.Delete(k)
    requires |TouchedBesides(capacity, c, ops, k)| < capacity
    ensures var d := Run(capacity, c, ops);
            && Valid(d) && |d.order| <= Room(capacity) && k in d.vals
            && OnlyAhead(d.order, k, TouchedBesides(capacity, c, ops, k))
  {
    if ops != [] {
      var before, op := ops[..|ops| - 1], ops[|ops| - 1];
      var t := TouchedBesides(capacity, c, ops, k);
      SubsetCardinality(TouchedBesides(capacity, c, before, k), t);
      Retention(capacity, c, before, k);
      var d := Run(capacity, c, before);
      OnlyAheadGrows(d.order, k, TouchedBesides(capacity, c, before, k), t);
      StepRetains(capacity, d, op, k, t);
      StepValid(capacity, d, op);
      OnlyAheadIn(Run(capacity, c, ops).order, k, t);
    }
  }

  lemma {:induction false} RunConcat<K, V>(capacity: int, c: Cache<K, V>, a: seq<Op<K, V>>, b: seq<Op<K, V>>)
    ensures Run(capacity, c, a + b) == Run(capacity, Run(capacity, c, a), b)
    decreases |b|
  {
    if b == [] {
      assert a + b == a;
    } else {
      assert (a + b)[..|a + b| - 1] == a + b[..|b| - 1];
      RunConcat(capacity, c, a, b[..|b| - 1]);
    }
  }

  /** A stored or hit key goes to the front. */
  lemma TouchedIsFirst<K, V>(capacity: int, c: Cache<K, V>, op: Op<K, V>)
    requires Valid(c) && |c.order| <= Room(capacity) && capacity >= 1
    requires op.Put? || (op.Get? && op.key in c.vals)
    ensures var d := Step(capacity, c, op); d.order != [] && d.order[0] == op.key
  {
  }

  /** From any history: a key stored or hit is found, with the value last put under it, until it is deleted
      or at least `capacity` distinct other keys have been stored or hit since. */
  lemma RetrievableUntilCrowdedOut<K, V>(capacity: int, before: seq<Op<K, V>>, touch: Op<K, V>, after: seq<Op<K, V>>)
    requires capacity >= 1
    requires touch.Put? || (touch.Get? && touch.key in Run(capacity, Empty(), before).vals)
    requires forall i :: 0 <= i < |after| ==> after[i] != Op<K, V>.Delete(touch.key)
    requires |TouchedBesides(capacity, Run(capacity, Empty(), before + [touch]), after, touch.key)| < capacity
    ensures var all := before + [touch] + after;
            var c := Run(capacity, Empty(), all);
            && touch.key in c.vals && touch.key in Ideal(all) && c.vals[touch.key] == Ideal(all)[touch.key]
  {
    var mid := before + [touch];
    HitIsLatestPut(capacity, before);
    HitIsLatestPut(capacity, mid);
    assert mid[..|mid| - 1] == before;
    TouchedIsFirst(capacity, Run(capacity, Empty(), before), touch);
    Retention(capacity, Run(capacity, Empty(), mid), after, touch.key);
    RunConcat(capacity, Empty(), mid, after);
    HitIsLatestPut(capacity, mid + after);
  }

  function KeysPut<K, V>(ops: seq<Op<K, V>>): set<K> {
    if ops == [] then {}
    else
      var op := ops[|ops| - 1];
      KeysPut(ops[..|ops| - 1]) + if op.Put? then {op.key} else {}
  }

  lemma {:induction false} DistinctCount<K>(s: seq<K>, t: set<K>)
    requires NoDuplicates(s) && forall x :: x in s ==> x in t
    ensures |s| <= |t|
  {
    if s != [] {
      HeadIsUnique(s);
      forall x | x in s[1..]
        ensures x in t - {s[0]}
      {
        assert x in s;
      }
      DistinctCount(s[1..], t - {s[0]});
    }
  }

  /** As long as no more than `capacity` distinct keys are ever stored, the cache is that map exactly. */
  lemma {:induction false} IdealWhileKeysFit<K, V>(capacity: int, ops: seq<Op<K, V>>)
    requires |KeysPut(ops)| <= capacity
    ensures var c := Run(capacity, Empty(), ops); c.vals == Ideal(ops) && forall k :: k in c.vals ==> k in KeysPut(ops)
  {
    if ops != [] {
      var before, op := ops[..|ops| - 1], ops[|ops| - 1];
      SubsetCardinality(KeysPut(before), KeysPut(ops));
      IdealWhileKeysFit(capacity, before);
      HitIsLatestPut(capacity, before);
      var c := Run(capacity, Empty(), before);
      if op.Put? && op.key !in c.vals {
        PushValid(c, op.key, op.value);
        assert forall x :: x in [op.key] + c.order ==> x == op.key || x in c.order;
        DistinctCount([op.key] + c.order, KeysPut(ops));
      }
    }
  }

  // ---------------------------------------------------------------------------
  // Inclusion

  /** `s` is `t` with some elements left out. */
  predicate SubSequence<K(==)>(s: seq<K>, t: seq<K>) {
    s == [] || (t != [] && if s[0] == t[0] then SubSequence(s[1..], t[1..]) else SubSequence(s, t[1..]))
  }

  lemma {:induction false} SubSequenceSkip<K>(s: seq<K>, x: K, t: seq<K>)
    requires SubSequence(s, t)
    ensures SubSequence(s, [x] + t)
    decreases |t|, 1
  {
    assert ([x] + t)[1..] == t;
    if s != [] && s[0] == x {
      SubSequenceTail(s, t);
    }
  }

  lemma {:induction false} SubSequenceTail<K>(s: seq<K>, t: seq<K>)
    requires SubSequence(s, t) && s != []
    ensures SubSequence(s[1..], t)
    decreases |t|, 0
  {
    var u := t[1..];
    assert t == [t[0]] + u;
    if s[0] == t[0] {
      SubSequenceSkip(s[1..], t[0], u);
    } else {
      SubSequenceTail(s, u);
      SubSequenceSkip(s[1..], t[0], u);
    }
  }

  lemma {:induction false} SubSequenceMember<K>(s: seq<K>, t: seq<K>, x: K)
    requires SubSequence(s, t) && x in s
    ensures x in t
    decreases |t|
  {
    if s[0] == t[0] {
      if x != s[0] { SubSequenceMember(s[1..], t[1..], x); }
    } else {
      SubSequenceMember(s, t[1..], x);
    }
  }

  lemma SubSequenceCons<K>(x: K, s: seq<K>, t: seq<K>)
    requires SubSequence(s, t)
    ensures SubSequence([x] + s, [x] + t)
  {
    assert ([x] + s)[1..] == s && ([x] + t)[1..] == t;
  }

  lemma {:induction false} WithoutAbsent<K>(s: seq<K>, k: K)
    requires k !in s
    ensures Without(s, k) == s
  {
    if s != [] { WithoutAbsent(s[1..], k); }
  }

  /** Leaving the same key out of both keeps the relation. */
  lemma {:induction false} SubSequenceWithout<K>(s: seq<K>, t: seq<K>, k: K)
    requires SubSequence(s, t) && NoDuplicates(s)
    ensures SubSequence(Without(s, k), Without(t, k))
    decreases |t|
  {
    if s != [] {
      assert t == [t[0]] + t[1..] && s == [s[0]] + s[1..];
      if s[0] == t[0] {
        if s[0] != k {
          HeadIsUnique(s);
          SubSequenceWithout(s[1..], t[1..], k);
          SubSequenceCons(s[0], Without(s[1..], k), Without(t[1..], k));
        }
      } else if t[0] == k {
        WithoutIsSub(s, t[1..], k);
      } else {
        SubSequenceWithout(s, t[1..], k);
        SubSequenceSkip(Without(s, k), t[0], Without(t[1..], k));
      }
    }
  }

  lemma {:induction false} WithoutIsSub<K>(s: seq<K>, t: seq<K>, k: K)
    requires SubSequence(s, t)
    ensures SubSequence(Without(s, k), t)
    decreases |t|
  {
    if s != [] {
      assert t == [t[0]] + t[1..];
      if s[0] == k {
        SubSequenceTail(s, t);
      } else if s[0] == t[0] {
        WithoutIsSub(s[1..], t[1..], k);
        SubSequenceCons(s[0], Without(s[1..], k), t[1..]);
      } else {
        WithoutIsSub(s, t[1..], k);
        SubSequenceSkip(Without(s, k), t[0], t[1..]);
      }
    }
  }

  /** Dropping the last element of the shorter list, or of both, keeps the relation. */
  lemma {:induction false} SubSequenceDropLast<K>(s: seq<K>, t: seq<K>)
    requires SubSequence(s, t) && s != []
    ensures t != [] && SubSequence(s[..|s| - 1], t) && SubSequence(s[..|s| - 1], t[..|t| - 1])
    decreases |t|
  {
    var m, n := |s| - 1, |t| - 1;
    assert t == [t[0]] + t[1..];
    if s[0] == t[0] {
      if m > 0 {
        SubSequenceDropLast(s[1..], t[1..]);
        assert s[..m][1..] == s[1..][..m - 1] && t[..n][1..] == t[1..][..n - 1];
      }
    } else {
      SubSequenceDropLast(s, t[1..]);
      SubSequenceSkip(s[..m], t[0], t[1..]);
      assert t[..n] == [t[0]] + t[1..][..n - 1];
      SubSequenceSkip(s[..m], t[0], t[1..][..n - 1]);
    }
  }

  /** The smaller cache's list is part of the larger one's, its values are the same, and it is full when the
      larger one is. */
  predicate Included<K, V(==)>(small: int, large: int, a: Cache<K, V>, b: Cache<K, V>) {
    && Valid(a) && Valid(b) && |a.order| <= Room(small) && |b.order| <= Room(large)
    && SubSequence(a.order, b.order) && SubMap(a.vals, b.vals)
    && |b.order| - |a.order| <= Room(large) - Room(small)
  }

  function Pushed<K, V>(c: Cache<K, V>, k: K, v: V): Cache<K, V> {
    Cache([k] + c.order, c.vals[k := v])
  }

  lemma PutNewOrder<K, V>(small: int, large: int, a: Cache<K, V>, b: Cache<K, V>, k: K, v: V)
    requires small <= large && Included(small, large, a, b) && k !in a.vals && k !in b.vals
    ensures var c, d := Step(small, a, Op.Put(k, v)), Step(large, b, Op.Put(k, v));
            SubSequence(c.order, d.order) && |d.order| - |c.order| <= Room(large) - Room(small)
  {
    SubSequenceCons(k, a.order, b.order);
    SubSequenceDropLast([k] + a.order, [k] + b.order);
  }

  lemma PutNewValues<K, V>(small: int, large: int, a: Cache<K, V>, b: Cache<K, V>, k: K, v: V)
    requires small <= large && Included(small, large, a, b) && k !in a.vals && k !in b.vals
    ensures SubMap(Step(small, a, Op.Put(k, v)).vals, Step(large, b, Op.Put(k, v)).vals)
  {
    var c, d := Pushed(a, k, v), Pushed(b, k, v);
    assert SubMap(c.vals, d.vals);
    if |b.order| + 1 > large {
      PushedEvictsBoth(a, b, k, v);
    } else {
      PushValid(a, k, v);
      EvictValid(c);
    }
  }

  lemma PushedEvictsBoth<K, V>(a: Cache<K, V>, b: Cache<K, V>, k: K, v: V)
    requires Valid(a) && Valid(b) && k !in a.vals && k !in b.vals
    requires SubSequence(a.order, b.order) && SubMap(Pushed(a, k, v).vals, Pushed(b, k, v).vals)
    ensures SubMap(Evict(Pushed(a, k, v)).vals, Evict(Pushed(b, k, v)).vals)
  {
    var c, d := Pushed(a, k, v), Pushed(b, k, v);
    PushValid(a, k, v);
    PushValid(b, k, v);
    SubSequenceCons(k, a.order, b.order);
    SubSequenceDropLast(c.order, d.order);
    EvictedFromBoth(c, d);
  }

  lemma PutNewIncluded<K, V>(small: int, large: int, a: Cache<K, V>, b: Cache<K, V>, k: K, v: V)
    requires small <= large && Included(small, large, a, b) && k !in a.vals && k !in b.vals
    ensures Included(small, large, Step(small, a, Op.Put(k, v)), Step(large, b, Op.Put(k, v)))
  {
    PutNewOrder(small, large, a, b, k, v);
    PutNewValues(small, large, a, b, k, v);
    StepValid(small, a, Op.Put(k, v));
    StepValid(large, b, Op.Put(k, v));
  }

  lemma EvictedFromBoth<K, V>(c: Cache<K, V>, d: Cache<K, V>)
    requires Valid(c) && Valid(d) && SubMap(c.vals, d.vals) && c.order != [] && d.order != []
    requires SubSequence(c.order[..|c.order| - 1], d.order[..|d.order| - 1])
    ensures SubMap(Evict(c).vals, Evict(d).vals)
  {
    EvictValid(c);
    EvictValid(d);
    forall k | k in Evict(c).vals
      ensures k in Evict(d).vals && Evict(d).vals[k] == Evict(c).vals[k]
    {
      assert k in Evict(c).order;
      SubSequenceMember(Evict(c).order, Evict(d).order, k);
    }
  }

  lemma PutHalfNewOrder<K, V>(small: int, large: int, a: Cache<K, V>, b: Cache<K, V>, k: K, v: V)
    requires small <= large && Included(small, large, a, b) && k !in a.vals && k in b.vals
    ensures var c, d := Step(small, a, Op.Put(k, v)), Step(large, b, Op.Put(k, v));
            SubSequence(c.order, d.order) && |d.order| - |c.order| <= Room(large) - Room(small)
  {
    FrontValid(b, k);
    WithoutAbsent(a.order, k);
    SubSequenceWithout(a.order, b.order, k);
    SubSequenceCons(k, a.order, Without(b.order, k));
    SubSequenceDropLast([k] + a.order, MoveToFront(b.order, k));
  }

  lemma PutHalfNewIncluded<K, V>(small: int, large: int, a: Cache<K, V>, b: Cache<K, V>, k: K, v: V)
    requires small <= large && Included(small, large, a, b) && k !in a.vals && k in b.vals
    ensures Included(small, large, Step(small, a, Op.Put(k, v)), Step(large, b, Op.Put(k, v)))
  {
    PutHalfNewOrder(small, large, a, b, k, v);
    PushValid(a, k, v);
    EvictValid(Pushed(a, k, v));
    StepValid(small, a, Op.Put(k, v));
    StepValid(large, b, Op.Put(k, v));
  }

  lemma FrontIncluded<K>(s: seq<K>, t: seq<K>, k: K)
    requires SubSequence(s, t) && NoDuplicates(s)
    ensures k in s ==> SubSequence(MoveToFront(s, k), MoveToFront(t, k))
    ensures k !in s ==> SubSequence(s, MoveToFront(t, k))
  {
    SubSequenceWithout(s, t, k);
    if k in s {
      SubSequenceCons(k, Without(s, k), Without(t, k));
    } else {
      WithoutAbsent(s, k);
      SubSequenceSkip(s, k, Without(t, k));
    }
  }

  lemma StepIncluded<K, V>(small: int, large: int, a: Cache<K, V>, b: Cache<K, V>, op: Op<K, V>)
    requires small <= large && Included(small, large, a, b)
    ensures Included(small, large, Step(small, a, op), Step(large, b, op))
  {
    StepValid(small, a, op);
    StepValid(large, b, op);
    var k := op.key;
    match op
    case Get(_) =>
      FrontIncluded(a.order, b.order, k);
      if k in a.vals { FrontValid(a, k); }
      if k in b.vals { FrontValid(b, k); }
    case Put(_, v) =>
      if k in a.vals {
        FrontIncluded(a.order, b.order, k);
        FrontValid(a, k);
        FrontValid(b, k);
      } else if k in b.vals {
        PutHalfNewIncluded(small, large, a, b, k, v);
      } else {
        PutNewIncluded(small, large, a, b, k, v);
      }
    case Delete(_) => DeleteIncluded(small, large, a, b, k);
  }

  lemma DeleteIncluded<K, V>(small: int, large: int, a: Cache<K, V>, b: Cache<K, V>, k: K)
    requires small <= large && Included(small, large, a, b)
    ensures Included(small, large, Step(small, a, Delete(k)), Step(large, b, Delete(k)))
  {
    StepValid(small, a, Delete(k));
    StepValid(large, b, Delete(k));
    SubSequenceWithout(a.order, b.order, k);
    if k in a.vals { RemoveValid(a, k); } else { WithoutAbsent(a.order, k); }
    if k in b.vals { RemoveValid(b, k); }
  }

  /** For any common sequence of operations, a larger cache holds every key of a smaller one with the same
      value, and the smaller recency list is the larger one with keys left out. */
  lemma {:induction false} Inclusion<K, V>(small: int, large: int, ops: seq<Op<K, V>>)
    requires small <= large
    ensures Included(small, large, Run(small, Empty(), ops), Run(large, Empty(), ops))
  {
    if ops != [] {
      Inclusion(small, large, ops[..|ops| - 1]);
      StepIncluded(small, large, Run(small, Empty(), ops[..|ops| - 1]), Run(large, Empty(), ops[..|ops| - 1]), ops[|ops| - 1]);
    }
  }
}
