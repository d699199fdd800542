/**
 * The in-memory `ObjectCacher` of src/object_cacher.py: the class-level
 * dictionaries with the `invalidate` classmethod (class Registry), one
 * cacher instance (class Cacher) and the memoizing wrapper it returns when
 * applied to a function (class Memoized). `Create`, `IsExpired`,
 * `Memoized.Call` and `Registry.Invalidate` are proved against the
 * functions of CacheSpec; the other methods state their effect directly.
 */
module ObjectCacher {
  import opened CacheSpec

  /**
   * The state the class keeps for all its instances: `_CACHE` and
   * `_EXPIRATIONS`, with the static `get_oid` (uuid3 of the name) and the
   * process's `hash` of a call's arguments as fixed functions.
   */
  class Registry<A, V> {
    const getOid: string -> Oid
    const hash: Call<A> -> Key
    var cache: map<Oid, map<Key, V>>
    var expirations: map<Oid, map<Key, int>>

    ghost predicate Valid()
      reads this
    {
      WellFormed(Snapshot())
    }

    function Snapshot(): (s: Tables<V>)
      reads this
    {
      Tables(cache, expirations)
    }

    constructor (getOid: string -> Oid, hash: Call<A> -> Key)
      ensures Valid() && this.getOid == getOid && this.hash == hash
      ensures cache == map[] && expirations == map[]
    {
      this.getOid := getOid;
      this.hash := hash;
      cache := map[];
      expirations := map[];
    }

    /**
     * The classmethod `invalidate(oid, key=None)`: raise for an unknown
     * identity; with a key, remove it from both maps when it is in both;
     * without one, pop every key of the identity from both maps.
     */
    method Invalidate(oid: Oid, key: Option<Key>) returns (r: Result<bool>)
      requires Valid()
      modifies this
      ensures Valid()
      ensures r == InvalidateResult(old(Snapshot()), oid, key)
      ensures Snapshot() == Invalidated(old(Snapshot()), oid, key)
    {
      if oid !in cache {
        return Failure(UnregisteredOid(oid));
      }
      if key.Some? {
        var k := key.value;
        if k in cache[oid] && k in expirations[oid] {
          cache := cache[oid := cache[oid] - {k}];
          expirations := expirations[oid := expirations[oid] - {k}];
          return Success(true);
        }
        return Success(false);
      }
      // Python 2's `keys()` is a list, so the loops pop from the live dict safely.
      var pending := cache[oid].Keys;
      while pending != {}
        invariant oid in cache && cache.Keys == old(cache).Keys
        invariant cache == old(cache)[oid := cache[oid]] && expirations == old(expirations)
        invariant cache[oid].Keys == pending
        decreases pending
      {
        var k :| k in pending;
        cache := cache[oid := cache[oid] - {k}];
        pending := pending - {k};
      }
      pending := expirations[oid].Keys;
      while pending != {}
        invariant oid in expirations && expirations.Keys == old(expirations).Keys
        invariant expirations == old(expirations)[oid := expirations[oid]]
        invariant cache == old(cache)[oid := map[]]
        invariant expirations[oid].Keys == pending
        decreases pending
      {
        var k :| k in pending;
        expirations := expirations[oid := expirations[oid] - {k}];
        pending := pending - {k};
      }
      return Success(true);
    }
  }

  /** One cacher instance: its identity, timeout and `ignore_self` flag, over the shared registry. */
  class Cacher<A, V> {
    const registry: Registry<A, V>
    const oid: Oid
    const timeout: int
    const ignoreSelf: bool

    /** `self.cache` and `self.expirations` are the registry's maps at this identity. */
    ghost predicate Valid()
      reads registry
    {
      registry.Valid() && oid in registry.cache
    }

    constructor (registry: Registry<A, V>, oid: Oid, timeout: int, ignoreSelf: bool)
      ensures this.registry == registry && this.oid == oid
      ensures this.timeout == timeout && this.ignoreSelf == ignoreSelf
    {
      this.registry := registry;
      this.oid := oid;
      this.timeout := timeout;
      this.ignoreSelf := ignoreSelf;
    }

    /**
     * `__init__`: the identity is `get_oid` of the name, or of a fresh uuid
     * when the name is falsy; an identity already registered raises and
     * leaves the registry as it was, otherwise it is registered with two
     * empty maps and nothing else changes.
     */
    static method Create(registry: Registry<A, V>, ignoreSelf: bool, timeout: int, name: Option<string>, uuid: string)
      returns (r: Result<Cacher<A, V>>)
      requires registry.Valid()
      modifies registry
      ensures registry.Valid()
      ensures var uoid := registry.getOid(EffectiveName(name, uuid));
              if uoid in old(registry.cache) then
                && r == Failure(DuplicateOid(EffectiveName(name, uuid)))
                && registry.Snapshot() == old(registry.Snapshot())
              else
                && r.Success? && fresh(r.value) && r.value.Valid()
                && r.value.registry == registry && r.value.oid == uoid
                && r.value.timeout == timeout && r.value.ignoreSelf == ignoreSelf
                && registry.Snapshot() == Registered(old(registry.Snapshot()), uoid)
    {
      var n := if IsFalsy(name) then uuid else name.value;
      var uoid := registry.getOid(n);
      if uoid in registry.cache {
        return Failure(DuplicateOid(n));
      }
      registry.cache := registry.cache[uoid := map[]];
      registry.expirations := registry.expirations[uoid := map[]];
      var c := new Cacher(registry, uoid, timeout, ignoreSelf);
      return Success(c);
    }

    /** `is_expired` on this identity's timestamps, with the clock reading `now`. */
    method IsExpired(key: Key, now: int) returns (expired: bool)
      requires Valid()
      ensures expired == CacheSpec.IsExpired(registry.expirations[oid], key, now, timeout)
    {
      var stamps := registry.expirations[oid];
      if key in stamps && stamps[key] != 0 {
        expired := now > stamps[key] + timeout;
      } else {
        expired := true;
      }
    }

    /** `set_ts`: stamp the key with the clock; nothing else changes. */
    method SetTs(key: Key, now: int)
      requires Valid()
      modifies registry
      ensures Valid()
      ensures registry.cache == old(registry.cache)
      ensures registry.expirations == old(registry.expirations)[oid := old(registry.expirations)[oid][key := now]]
    {
      registry.expirations := registry.expirations[oid := registry.expirations[oid][key := now]];
    }

    /** `store`: put the value under the key; nothing else changes. */
    method Store(key: Key, value: V)
      requires Valid()
      modifies registry
      ensures Valid()
      ensures registry.expirations == old(registry.expirations)
      ensures registry.cache == old(registry.cache)[oid := old(registry.cache)[oid][key := value]]
    {
      registry.cache := registry.cache[oid := registry.cache[oid][key := value]];
    }

    /** `restore`: the stored value (a deep copy, equal to it), or `KeyError` for an absent key. */
    method Restore(key: Key) returns (r: Result<V>)
      requires Valid()
      ensures key in registry.cache[oid] ==> r == Success(registry.cache[oid][key])
      ensures key !in registry.cache[oid] ==> r == Failure(MissingKey(key))
    {
      if key in registry.cache[oid] {
        r := Success(registry.cache[oid][key]);
      } else {
        r := Failure(MissingKey(key));
      }
    }

    /** `check_cache`: presence of the key, whatever its timestamp. */
    method CheckCache(key: Key) returns (present: bool)
      requires Valid()
      ensures present <==> key in registry.cache[oid]
    {
      present := key in registry.cache[oid];
    }

    /** `__call__`: wrap a function; the wrapper's `cache_key` is this identity. */
    method Decorate(func: Call<A> -> Outcome<V>) returns (w: Memoized<A, V>)
      ensures fresh(w) && w.cacher == this && w.func == func
      ensures w.cacheKey == oid && w.invocations == []
    {
      w := new Memoized(this, func);
    }
  }

  /** The `wrap` closure: a wrapped function together with the cacher that memoizes it. */
  class Memoized<A, V> {
    const cacher: Cacher<A, V>
    const func: Call<A> -> Outcome<V>
    const cacheKey: Oid
    /** Every invocation of the wrapped function, in order. */
    var invocations: seq<Call<A>>

    constructor (cacher: Cacher<A, V>, func: Call<A> -> Outcome<V>)
      ensures this.cacher == cacher && this.func == func
      ensures cacheKey == cacher.oid && invocations == []
    {
      this.cacher := cacher;
      this.func := func;
      cacheKey := cacher.oid;
      invocations := [];
    }

    /**
     * One call of the wrapper: derive the key, pop the entry if it is
     * expired, then answer from the cache (the function is not run and
     * nothing changes) or run the function once, store and stamp its result
     * and return it. A raising function leaves only the eviction behind.
     */
    method Call(args: seq<A>, kwargs: seq<(string, A)>, now: int) returns (result: Outcome<V>)
      requires cacher.Valid()
      modifies this, cacher.registry
      ensures cacher.Valid()
      ensures var key := DeriveKey(cacher.registry.hash, cacher.ignoreSelf, args, kwargs);
              var before := old(cacher.registry.Snapshot());
              && result == CallResult(before, cacher.oid, key, now, cacher.timeout, func((args, kwargs)))
              && cacher.registry.Snapshot() == AfterCall(before, cacher.oid, key, now, cacher.timeout, func((args, kwargs)))
              && invocations == old(invocations) + (if IsHit(before, cacher.oid, key, now, cacher.timeout) then [] else [(args, kwargs)])
    {
      var registry := cacher.registry;
      var key := DeriveKey(registry.hash, cacher.ignoreSelf, args, kwargs);
      ghost var before := registry.Snapshot();
      var expired := cacher.IsExpired(key, now);
      if expired && key in registry.cache[cacher.oid] {
        registry.cache := registry.cache[cacher.oid := registry.cache[cacher.oid] - {key}];
      }
      assert registry.Snapshot() == Evicted(before, cacher.oid, key, now, cacher.timeout);
      var present := cacher.CheckCache(key);
      if present {
        var restored := cacher.Restore(key);
        result := Returned(restored.value);
      } else {
        invocations := invocations + [(args, kwargs)];
        result := func((args, kwargs));
        if result.Returned? {
          cacher.Store(key, result.value);
          cacher.SetTs(key, now);
        }
      }
    }
  }

  /** Constructing a second instance under the same name raises; the first one is untouched. */
  method SameNameTwice<A, V>(registry: Registry<A, V>, name: string, uuid1: string, uuid2: string)
    returns (first: Result<Cacher<A, V>>, second: Result<Cacher<A, V>>)
    requires registry.Valid() && name != "" && registry.getOid(name) !in registry.cache
    modifies registry
    ensures first.Success? && first.value.oid == registry.getOid(name)
    ensures second == Failure(DuplicateOid(name))
    ensures registry.Snapshot() == Registered(old(registry.Snapshot()), registry.getOid(name))
  {
    first := Cacher.Create(registry, false, 60, Some(name), uuid1);
    second := Cacher.Create(registry, false, 60, Some(name), uuid2);
  }

  /**
   * A wrapper with a one-unit timeout: the first call runs the function, an
   * immediate repeat is answered from the cache, and a call after the
   * timeout runs the function again.
   */
  method ExpiryScenario<A, V>(w: Memoized<A, V>, args: seq<A>, start: int, v: V)
    returns (r1: Outcome<V>, r2: Outcome<V>, r3: Outcome<V>, runs1: nat, runs2: nat, runs3: nat, after1: Tables<V>, after2: Tables<V>)
    requires w.cacher.Valid() && w.cacher.timeout == 1 && start > 0
    requires DeriveKey(w.cacher.registry.hash, w.cacher.ignoreSelf, args, []) !in w.cacher.registry.cache[w.cacher.oid]
    requires w.func((args, [])) == Returned(v)
    requires w.invocations == []
    modifies w, w.cacher.registry
    ensures r1 == r2 == r3 == Returned(v)
    ensures w.invocations == [(args, []), (args, [])]
    ensures runs1 == 1 && runs2 == 1 && runs3 == 2
    ensures after2 == after1
  {
    ghost var key := DeriveKey(w.cacher.registry.hash, w.cacher.ignoreSelf, args, []);
    ghost var oid := w.cacher.oid;
    ghost var t0 := w.cacher.registry.Snapshot();
    assert !IsHit(t0, oid, key, start, 1);
    r1 := w.Call(args, [], start);
    runs1, after1 := |w.invocations|, w.cacher.registry.Snapshot();
    MissThenHit(t0, oid, key, start, start, 1, v, Returned(v));
    r2 := w.Call(args, [], start);
    runs2, after2 := |w.invocations|, w.cacher.registry.Snapshot();
    MissAfterTimeout(t0, oid, key, start, start + 2, 1, v, Returned(v));
    r3 := w.Call(args, [], start + 2);
    runs3 := |w.invocations|;
  }
}
