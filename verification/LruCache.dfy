/** common/db/memorydb/lru_cache.go: the cache as the object the program mutates. */
module MemoryDb {
  import opened Types
  import Lru

  class LRUCache<K(==), V> {
    var capacity: int
    /** The values, which the program reaches through the list elements its map points to. */
    var cache: map<K, V>
    /** The keys of the list elements, front first. */
    var lru: seq<K>

    ghost function View(): Lru.Cache<K, V>
      reads this
    {
      Lru.Cache(lru, cache)
    }

    /** Map and list hold the same keys, at most `capacity` of them. */
    ghost predicate Valid()
      reads this
    {
      Lru.Valid(View()) && |lru| <= Lru.Room(capacity)
    }

    constructor (capacity: int)
      ensures Valid() && this.capacity == capacity && View() == Lru.Empty()
    {
      this.capacity := capacity;
      cache, lru := map[], [];
    }

    method Get(key: K) returns (value: Option<V>)
      requires Valid()
      modifies this`lru
      ensures Valid() && View() == Lru.Step(capacity, old(View()), Lru.Get(key))
      ensures value == if key in cache then Some(cache[key]) else None
    {
      ghost var c := View();
      Lru.StepValid(capacity, c, Lru.Op<K, V>.Get(key));
      if key in cache {
        lru := Lru.MoveToFront(lru, key);
        return Some(cache[key]);
      }
      return None;
    }

    method Put(key: K, value: V)
      requires Valid()
      modifies this`cache, this`lru
      ensures Valid() && View() == Lru.Step(capacity, old(View()), Lru.Put(key, value))
    {
      ghost var c := View();
      Lru.StepValid(capacity, c, Lru.Op<K, V>.Put(key, value));
      if key in cache {
        lru := Lru.MoveToFront(lru, key);
        cache := cache[key := value];
        return;
      }
      lru := [key] + lru;
      cache := cache[key := value];
      if |lru| > capacity {
        Evict();
      }
    }

    method Evict()
      modifies this`cache, this`lru
      ensures View() == Lru.Evict(old(View()))
    {
      if lru == [] {
        return;
      }
      var key := lru[|lru| - 1];
      lru := lru[..|lru| - 1];
      cache := cache - {key};
    }

    method Delete(key: K) returns (ok: bool)
      requires Valid()
      modifies this`cache, this`lru
      ensures Valid() && View() == Lru.Step(capacity, old(View()), Lru.Delete(key))
      ensures ok <==> key in old(cache)
    {
      ghost var c := View();
      Lru.StepValid(capacity, c, Lru.Op<K, V>.Delete(key));
      if key in cache {
        lru := Lru.Without(lru, key);
        cache := cache - {key};
        return true;
      }
      return false;
    }
  }
}
