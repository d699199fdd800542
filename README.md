# ObjectCacher: a verified model of the in-memory memoizing cache

`ObjectCacher` is a decorator that memoizes a function. Each cacher
instance has an identity (`oid`), a timeout and an `ignore_self` flag. All
instances of the class share two class-level dictionaries:

- `_CACHE` maps an identity to its entries (`key -> value`).
- `_EXPIRATIONS` maps an identity to its timestamps (`key -> time`).

A wrapped call works as follows:

1. It derives a key from the hash of its arguments. With `ignore_self`, the receiver is left out.
2. It pops the entry if it is expired.
3. It then answers from the cache (a hit), or runs the function, stores the result and stamps it with the clock (a miss).

The classmethod `invalidate(oid, key=None)` removes one key of an identity, or clears the identity.

The repository defines this class twice: in `src/object_cacher.py` (the
newer copy) and in the top-level `object_cacher.py` (the older copy).

- `cache_spec.dfy` (module `CacheSpec`) is the pure model. It has:
  - a snapshot `Tables` of the two dictionaries;
  - the freshness test `IsExpired`;
  - the key derivation `KeyArgs` / `DeriveKey`;
  - the state change and result of one wrapped call (`Evicted`, `Stored`, `AfterCall`, `CallResult`);
  - registration (`Registered`) and invalidation (`Invalidated`, `InvalidateResult`);
  - runs of these operations (`Step`, `Run`).

  Lemmas relate several operations: a repeated call is a hit, a call after the timeout is a miss, an invalidated key is a miss, and the invariant "every stored key has a timestamp" holds over any run.
- `object_cacher.dfy` (module `ObjectCacher`) models `src/object_cacher.py` imperatively:
  - `Registry` holds the class dictionaries and the classmethod `Invalidate`, with its two pop-every-key loops.
  - `Cacher` is one instance: `Create` (for `__init__`), `IsExpired`, `SetTs`, `Store`, `Restore`, `CheckCache` and `Decorate` (for `__call__`).
  - `Memoized` is the `wrap` closure. Its `Call` is proved against `CacheSpec.AfterCall` and `CacheSpec.CallResult`.
- `legacy_object_cacher.dfy` (module `LegacyObjectCacher`) models `object_cacher.py` in the same shape. That class has dictionaries of its own, so this module has its own classes. Its construction differs: an unnamed instance uses the raw uuid as its identity, without `get_oid` and without the duplicate check. It has no `check_cache`.

Environment inputs:

- The clock is an integer `now` passed to each call.
- `uuid4()` is a `uuid` parameter of construction.
- `get_oid` (uuid3 of the name) and Python's `hash` of the argument tuple are fixed function fields of the registry, `getOid` and `hash`. Only their determinism is used, except in `ReceiverDistinguishes`, which assumes the hash tells argument tuples apart.
- The wrapped function is a function from a call's arguments to an `Outcome`: a returned value, or a raised exception. `Memoized.invocations` logs every time it runs.
- Both `KeyError`s of the source are `Failure` values of a `Result`: the duplicate identity and the unregistered identity. So is the `KeyError` of `restore` on an absent key.

Three behaviours of the code that a reader may not expect, and that the model follows:

- In `src/object_cacher.py:41-50` an unnamed construction also passes its uuid through `get_oid` and the duplicate check, so `Create` can fail for an unnamed instance when that identity is taken.
- In `object_cacher.py:24-25` an unnamed construction takes the raw uuid as its identity with no check. If that uuid is already registered, `_CACHE` and `_EXPIRATIONS` get fresh empty maps for it (what happens to an earlier instance is under "## Left out").
- `is_expired` (`src/object_cacher.py:65`, `if ts`) treats the timestamp 0 as absent, so the lemmas that a repeated call hits require `now != 0`.

## Model

| member | source | states |
|---|---|---|
| CacheSpec.Registered | src/object_cacher.py:53-54 | registration gives the identity an empty entries map and an empty timestamp map, leaves every other identity as it was, and keeps the timestamp invariant |
| ObjectCacher.Registry.constructor | src/object_cacher.py:33-34 | the class dictionaries start empty |
| ObjectCacher.Cacher.Create | src/object_cacher.py:40-58 | the identity is `get_oid` of the name or of the uuid; if it is registered, construction raises the duplicate error and the registry is unchanged; otherwise the new instance has that identity, timeout and flag, and the registry gains exactly that identity with two empty maps |
| ObjectCacher.SameNameTwice | src/object_cacher.py:48-50 | constructing twice under one name succeeds once and then raises the duplicate error, registering the identity once |
| CacheSpec.FreshUntilTimeout | src/object_cacher.py:63-68 | a key that `set_ts` stamped with a non-zero clock reading is fresh exactly until the timeout has passed; a key stamped with the falsy reading 0 is expired at every time |
| CacheSpec.ExpiryIsMonotone | src/object_cacher.py:63-65 | a key expired at some time is expired at every later time |
| ObjectCacher.Cacher.IsExpired | src/object_cacher.py:63-65 | the method's answer is the freshness test on this identity's timestamps |
| ObjectCacher.Cacher.SetTs | src/object_cacher.py:67-68 | only this identity's timestamp for the key changes, to `now` |
| ObjectCacher.Cacher.Store | src/object_cacher.py:70-71 | only this identity's entry for the key changes, to the value |
| ObjectCacher.Cacher.Restore | src/object_cacher.py:73-74 | returns the stored value (a deep copy of an immutable value is equal to it), or the missing-key error when the key is absent |
| ObjectCacher.Cacher.CheckCache | src/object_cacher.py:76-77 | true exactly when the key is stored for this identity, whatever its timestamp |
| ObjectCacher.Cacher.Decorate | src/object_cacher.py:79-104 | the wrapper is new, wraps the given function over this cacher, has not run it yet, and its `cacheKey` is this identity |
| CacheSpec.IgnoreSelfIsCallWithoutReceiver | src/object_cacher.py:82-87 | with `ignore_self`, a call derives the same key as the call without its first argument made with `ignore_self` off |
| CacheSpec.ReceiverIgnored | src/object_cacher.py:82-87 | with `ignore_self`, two calls that differ only in the receiver derive the same key |
| CacheSpec.ReceiverDistinguishes | src/object_cacher.py:84-87 | without `ignore_self`, when the hash tells argument tuples apart, two calls that differ only in the receiver derive different keys |
| CacheSpec.Evicted | src/object_cacher.py:89-90 | the eviction step pops the key from the entries exactly when it is stored and expired; the timestamps, other keys and other identities do not change |
| CacheSpec.AfterCall | src/object_cacher.py:89-101 | a hit leaves the tables unchanged; a miss that returns stores the value and stamps `now`; a miss that raises leaves the key absent and the timestamps unchanged; other keys and identities never change, and the timestamp invariant is kept |
| CacheSpec.CallResultMatchesTables | src/object_cacher.py:92-101 | a call returns a value exactly when that value is stored under the key afterwards (the cached one on a hit, the fresh one on a miss); otherwise it passes on the exception the function raised |
| ObjectCacher.Memoized.Call | src/object_cacher.py:81-101 | one wrapped call returns `CallResult` and leaves the tables at `AfterCall` for the derived key; the function runs exactly once on a miss and not at all on a hit |
| CacheSpec.MissThenHit | src/object_cacher.py:89-101 | after a miss stores a value at `now != 0`, a call for the same key at any time up to `now + timeout` is a hit that returns that value and changes nothing |
| CacheSpec.MissAfterTimeout | src/object_cacher.py:89-101 | after the timeout has passed, the same key is a miss and the call returns the function's new outcome |
| CacheSpec.RepeatedCallsHit | src/object_cacher.py:89-101 | once a value is stored and stamped at `now != 0`, any run of calls for that key up to `now + timeout` hits at every step and leaves the tables unchanged |
| ObjectCacher.ExpiryScenario | src/object_cacher.py:89-101 | with timeout 1: a first call runs the function (one invocation); an immediate repeat returns the same value without running it and leaves the tables as the first call left them (still one invocation); a call two units later runs it again (two invocations) |
| CacheSpec.InvalidateKeyReportsStored | src/object_cacher.py:108-115 | while every stored key has a timestamp, invalidating one key of a registered identity returns True exactly when the key is stored and False exactly when it is not, and the key is gone afterwards |
| CacheSpec.Invalidated | src/object_cacher.py:106-121 | a key in both maps is removed from both; without a key, both maps of the identity are emptied; otherwise nothing changes; other identities never change, and the timestamp invariant is kept |
| ObjectCacher.Registry.Invalidate | src/object_cacher.py:106-123 | the classmethod's result is `InvalidateResult` and its new state is `Invalidated`, the two pop-every-key loops included |
| CacheSpec.InvalidateAllThenMiss | src/object_cacher.py:116-121 | after clearing an identity, every key of it is a miss at any time |
| CacheSpec.InvalidateKeyThenMiss | src/object_cacher.py:109-113 | after invalidating a key, that key is a miss, and every other key that was a hit still hits with the same value |
| CacheSpec.Step | src/object_cacher.py:53-121 | registration, a wrapped call and an invalidation each keep both dictionaries on the same identities, forget no identity, and keep every stored key timestamped |
| CacheSpec.Run | src/object_cacher.py:53-121 | any run of those operations forgets no identity and keeps every stored key timestamped |
| LegacyObjectCacher.Registry.constructor | object_cacher.py:16-17 | the class dictionaries start empty |
| LegacyObjectCacher.Cacher.Create | object_cacher.py:23-37 | unnamed: always succeeds, with the uuid itself as identity, registered with two empty maps; named: identity `get_oid(name)`, raising the duplicate error with the registry unchanged when it is taken, else registered with two empty maps |
| LegacyObjectCacher.SameNameTwice | object_cacher.py:27-29 | constructing twice under one name succeeds once and then raises the duplicate error |
| LegacyObjectCacher.UnnamedTwice | object_cacher.py:24-25 | two unnamed constructions with different uuids both succeed, with those uuids as distinct identities that both stay registered |
| LegacyObjectCacher.Cacher.IsExpired | object_cacher.py:42-44 | the method's answer is the freshness test on this identity's timestamps |
| LegacyObjectCacher.Cacher.SetTs | object_cacher.py:46-47 | only this identity's timestamp for the key changes, to `now` |
| LegacyObjectCacher.Cacher.Store | object_cacher.py:49-50 | only this identity's entry for the key changes, to the value |
| LegacyObjectCacher.Cacher.Restore | object_cacher.py:52-53 | returns the stored value, or the missing-key error when the key is absent |
| LegacyObjectCacher.Cacher.Decorate | object_cacher.py:55-79 | the wrapper is new, wraps the given function, has not run it yet, and its `cacheKey` is this identity |
| LegacyObjectCacher.Memoized.Call | object_cacher.py:56-76 | one wrapped call (membership checked inline, with no `check_cache`) returns `CallResult` and leaves the tables at `AfterCall`; the function runs exactly once on a miss and not at all on a hit |
| LegacyObjectCacher.Registry.Invalidate | object_cacher.py:81-98 | the classmethod's result is `InvalidateResult` and its new state is `Invalidated`, the two pop-every-key loops included |

## Left out

- `ObjectPersistentCacher` (file-backed) and `ObjectRedisCacher` (remote key-value store) are not modelled. They are filesystem and network I/O whose freshness comes from file times or the store's own expiry.
- `LazyString`, logging and `traceback` are not modelled. They are diagnostics only.
- `get_oid` is not given a body of uuid3, and `uuid4()` is not generated. Both are inputs: the `getOid` field and the `uuid` parameter. No claim is made that either is collision-free.
- Python's `hash` is the registry's `hash` field, a total function. Unhashable arguments, which raise `TypeError` in `hash`, are not modelled.
- Names are strings. The source accepts any value for `oid` and applies `str`, and any falsy value selects the uuid. The model treats only an absent or empty name as falsy.
- Keyword arguments are the sequence of `kwargs.items()` in the dictionary's own order. The model does not say which order Python 2 gives.
- `copy.deepcopy` is the identity on immutable values. The model does not capture that the returned object is not the stored one.
- The clock is an integer. Floating-point time is not modelled. A miss reads `time.time()` up to twice: in `is_expired` only when the key has a non-zero timestamp, and in `set_ts`. The model uses one reading `now` for both.
- The timeout is an integer. Non-numeric timeouts are not modelled.
- Registry.Invalidate: the pop loops remove keys in an unspecified order, not in the order of the list that `keys()` returns. The result is the same: every key is gone.
- `functools.wraps` metadata is not modelled. Only `cache_key`, which equals the identity, is kept, as `Memoized.cacheKey`.
- Concurrent use of the shared dictionaries is not modelled; the source has none.
- Direct calls of `store` or `set_ts` outside a wrapped call can leave an entry without a timestamp. The invariant `Stamped` is therefore stated for runs of registrations, wrapped calls and invalidations (`CacheSpec.Run`). `Store` and `SetTs` themselves only state their exact effect.
- ObjectCacher.Memoized.Call: the wrapped function is a pure, deterministic function field of the wrapper. In the source it runs between the eviction and `store` (`src/object_cacher.py:97`), so a function that calls a wrapper of the same cacher (re-entrant use) or calls `invalidate` on the identity changes the cache in between. The model cannot express either. The frame of a miss (other keys and identities unchanged) is proved only for a function that does not reach the cache. A function whose result changes over time is not expressible either.
- LegacyObjectCacher.Memoized.Call: the same restriction on the wrapped function as above, which runs at `object_cacher.py:72`.
- LegacyObjectCacher.Cacher.Create: an unnamed construction whose uuid is already registered gives that identity fresh empty maps in `_CACHE` and `_EXPIRATIONS`. In the source an earlier instance with that identity keeps the dictionaries it bound at `object_cacher.py:34-35`, with its entries, and is detached from the class dictionaries. In the model every instance reads its maps through the registry, so the earlier instance sees the new empty maps. The model does not assume that `uuid4()` never repeats.
- CacheSpec.Step: a wrapped call on an unregistered identity is treated as no change. In the source that cannot happen, because an instance's identity is registered when it is built and is never removed.
