# TTL-indexed reference store, modelled in Dafny

The repository keeps short-lived handles (session tokens, codes, transient
results) under string keys. Each entry carries an expiry time, and the
store as a whole has an entry limit. The store exists twice, almost line
for line: `Reference` in reference.go and `Cache` in cache.go. Both hold a
score index, a map from key to (expiry time, value) that can also be read in
ascending expiry order, plus an integer `limit`.

The model has five modules:

- `Wrappers`: `Option` and `Result`.
- `SortedSet`: the part of the score index's contract that the store uses. It covers deleting every
  entry with score at most `x` (`RemoveByScore`) and deleting the `n` lowest-scored entries
  (`RemoveLowest`, built from `MinKey`). Both work on map values.
- `TtlStore`: the specification both copies share. It holds the constants, the values the store
  accepts (a `Value` tagged with its reflection kind), liveness at a clock reading (`Live`), the
  result of a `Set` (`SetSpec`) and of one recycle cycle (`Recycled`), with lemmas on each.
- `Reference` and `Cache`: one class each. The fields are `s` (the index, a map) and `limit`. The
  methods follow the Go bodies step by step, and their postconditions tie the new state to the
  `TtlStore` specification. `Valid()` holds the invariants the source keeps implicitly: `limit` is
  at least `MinRecords`, and every stored value is a non-nil interface value of kind Ptr, Slice or Map.

The clock is a parameter `now` of every operation that reads it. The
private `ttl` helper of each file is the class function `Ttl`. The two
classes differ only in `Get`'s result shape: `Reference.Get` returns
`(Nil, 0)` for a missing or expired key, and `Cache.Get` adds an `exist`
flag.

`MaxRecords` sets only the initial limit. `SetMaxRecords` raises a limit
below `MinRecords` but never lowers one above `MaxRecords`, so
`MaxRecords` is not a ceiling; the model follows the code. `Get` reports
the exact remaining seconds, `score - now`.

## Model

| member | source | states |
|---|---|---|
| `SortedSet.RemoveByScore` | reference.go:115 | the result is a sub-index of the input that keeps exactly the keys whose score exceeds the threshold |
| `SortedSet.MinKey` | reference.go:119 | returns a key of the index whose score is no greater than any other key's |
| `SortedSet.RemoveLowest` | reference.go:119 | removes `n` entries (all of them if `n` exceeds the size), keeps the rest unchanged, and no removed score exceeds a surviving score |
| `TtlStore.Rejection` | reference.go:62-72 | a `Set` input is accepted exactly when the value is non-nil, the ttl is non-negative and the kind is Ptr, Slice or Map |
| `TtlStore.SetSpec` | reference.go:61-91 | a `Set` fails exactly when an input check fails; on success the keys are the old keys plus `key`, every other key keeps its entry, `key` holds the new value and is live at `now` |
| `TtlStore.SetErrors` | reference.go:62-72 | the checks run in order: nil value, then negative ttl, then the Ptr/Slice/Map gate; with all three passed, `Set` succeeds |
| `TtlStore.SetPositiveTtl` | reference.go:74-90 | a positive ttl stores expiry `now + min(ttl, MaxTTLSecs)` with the new value, whatever the key held before |
| `TtlStore.SetClampsTtl` | reference.go:74-76 | a ttl above `MaxTTLSecs` gives the same result as `MaxTTLSecs` |
| `TtlStore.SetZeroKeepsLive` | reference.go:79-85 | a zero ttl on a live key keeps its expiry time and replaces only its value |
| `TtlStore.SetZeroDefaults` | reference.go:79-85 | a zero ttl on an absent or expired key stores expiry `now + 30` |
| `TtlStore.SetKeepsReferencesOnly` | reference.go:69-72 | a successful `Set` leaves only non-nil interface values of kind Ptr, Slice or Map in the store |
| `TtlStore.RecycledProperties` | reference.go:113-121 | after a cycle no entry has expired by `now`; survivors are unchanged old entries; an eviction leaves `limit - limit/2` entries; the store ends with at most `limit` entries, fewer when `limit >= 2`; no removed entry scores above a survivor |
| `TtlStore.RecycledKeepsReferencesOnly` | cache.go:111-119 | a recycle cycle leaves only non-nil interface values of kind Ptr, Slice or Map in the store |
| `Reference.Reference.constructor` | reference.go:24-32 | a new store is empty and its limit is `MaxRecords` |
| `Reference.Reference.SetMaxRecords` | reference.go:35-40 | the limit becomes `max(l, MinRecords)`; the entries are unchanged |
| `Reference.Reference.Get` | reference.go:42-55 | `(Nil, 0)` when the key is absent or its expiry is at or before `now`; otherwise the stored value and `score - now > 0`; in a valid store the value is non-nil exactly when the key is live |
| `Reference.Reference.Ttl` | reference.go:98-109 | the flag holds exactly when the key is live; the seconds are then `score - now > 0`, otherwise 0 |
| `Reference.Reference.Set` | reference.go:57-92 | on a failed check returns that error and changes nothing; otherwise the store becomes `SetSpec`'s result; the limit is unchanged |
| `Reference.Reference.Delete` | reference.go:94-96 | only `key` is removed; deleting an absent key changes nothing |
| `Reference.Reference.Recycle` | reference.go:111-122 | one sweep-and-evict cycle: the new store is `Recycled` from the old; survivors are unchanged and live; an eviction leaves `limit - limit/2` entries; fewer than `limit` remain; evicted scores do not exceed surviving ones |
| `Reference.Reference.GetLen` | reference.go:124-126 | the physical entry count, expired entries not yet swept included |
| `Reference.Reference.SetRand` | reference.go:128-132 | returns the generated string and leaves the store unchanged, because the bare string fails the type gate |
| `Reference.Reference.GetRand` | reference.go:134-140 | `""` for a key that is not live; in a valid store a live key makes the string assertion panic |
| `Reference.Reference.SetRandByPointer` | reference.go:128-132 | corrected `SetRand`: the store becomes `SetSpec`'s result for a `*string` value, so only `key` changes; with a non-negative ttl the stored string reads back at `now`; a negative ttl changes nothing |
| `Reference.Reference.GetRandByPointer` | reference.go:134-140 | corrected `GetRand`: `""` for a key that is not live, the pointed-to string for a live `*string`; in a valid store any other live value makes the `*string` assertion panic |
| `Reference.RandRoundTripAsWritten` | reference.go:128-140 | on a fresh store, `SetRand` then `GetRand` reads back `""`, not the generated string |
| `Reference.RandRoundTripByPointer` | reference.go:128-140 | on a fresh store, the corrected pair reads back the generated string |
| `Cache.Cache.constructor` | cache.go:24-32 | a new cache is empty and its limit is `MaxRecords` |
| `Cache.Cache.SetMaxRecords` | cache.go:35-40 | the limit becomes `max(l, MinRecords)`; the entries are unchanged |
| `Cache.Cache.Get` | cache.go:42-53 | `exist` holds exactly when the key is live; then it returns the stored value (in a valid cache a non-nil interface value of kind Ptr, Slice or Map) and `score - now > 0`, otherwise `(Nil, 0)` |
| `Cache.Cache.Ttl` | cache.go:96-107 | the flag holds exactly when the key is live; the seconds are then `score - now > 0`, otherwise 0 |
| `Cache.Cache.Set` | cache.go:55-90 | on a failed check returns that error and changes nothing; otherwise the cache becomes `SetSpec`'s result; the limit is unchanged |
| `Cache.Cache.Delete` | cache.go:92-94 | only `key` is removed; deleting an absent key changes nothing |
| `Cache.Cache.Recycle` | cache.go:109-120 | one sweep-and-evict cycle: survivors are unchanged and live; an eviction leaves `limit - limit/2` entries; fewer than `limit` remain; evicted scores do not exceed surviving ones |
| `Cache.Cache.GetLen` | cache.go:122-124 | the physical entry count, expired entries not yet swept included |
| `Cache.Cache.SetRand` | cache.go:126-130 | returns the generated string and leaves the cache unchanged, because the bare string fails the type gate |
| `Cache.Cache.GetRand` | cache.go:132-138 | `""` when `Get` reports not found; in a valid cache a found key makes the string assertion panic |
| `Cache.Cache.SetRandByPointer` | cache.go:126-130 | corrected `SetRand`: the store becomes `SetSpec`'s result for a `*string` value, so only `key` changes; with a non-negative ttl the stored string reads back at `now`; a negative ttl changes nothing |
| `Cache.Cache.GetRandByPointer` | cache.go:132-138 | corrected `GetRand`: `""` when not found, the pointed-to string for a live `*string`; in a valid cache any other live value makes the `*string` assertion panic |
| `Cache.RandRoundTripAsWritten` | cache.go:126-138 | on a fresh cache, `SetRand` then `GetRand` reads back `""`, not the generated string |
| `Cache.RandRoundTripByPointer` | cache.go:126-138 | on a fresh cache, the corrected pair reads back the generated string |

## Findings

| source | as written | input that shows it | evidently intended | confidence | as-written member | corrected member |
|---|---|---|---|---|---|---|
| reference.go:128-140 | `SetRand` passes the bare generated string to `Set`, which rejects kind String; the error is dropped. `GetRand` asserts `v.(string)`, but a live key only ever holds a Ptr, Slice or Map | `SetRand("k", 10)` then `GetRand("k")` at the same time returns `""`; `GetRand` on a key stored by `Set` panics | `GetRand` returns the string `SetRand` generated, for example by storing `&rs` and dereferencing it | high, not executed | `Reference.RandRoundTripAsWritten` | `Reference.Reference.SetRandByPointer` |
| cache.go:126-138 | the same two lines in `Cache` | `SetRand("k", 10)` then `GetRand("k")` at the same time returns `""`; `GetRand` on a found key panics | as above | high, not executed | `Cache.RandRoundTripAsWritten` | `Cache.Cache.SetRandByPointer` |

## Left out

- `safeInfiLoop` and the scheduling in `Recycle` are not modelled. That covers the goroutines, the channel, recovery from panics, the 500 ms start-up sleep, the 5-second `RecycleIntervalSecs` period and the 60-second restart delay. Only one call of the closure body is modelled, as `Recycle(now)`.
- `New` starting the recycler: the constructors only build the empty store.
- `time.Now()` becomes the parameter `now`. A zero-ttl `Set` reads the clock twice in the source (once in `ttl`, once for the expiry). The model uses one reading, so a kept expiry is exactly the old one.
- Concurrency is not modelled: callers interleaving with each other and with the recycler, and the index's own thread safety. Each operation is one atomic step.
- 64-bit arithmetic is not modelled: `int64` wrap-around in `now + ttl`, `score - now` and the limit arithmetic. Unbounded integers are used because unix seconds and ttls of at most 7200 stay far from the bounds.
- The index behind the sorted-set package (its skip list and its tie-break among equal scores) is not part of this model. `RemoveByRank(0, n)` is read as "remove the `n` lowest scores", and which of several equal scores goes first is left open.
- `float64(limit) * RecycleOverLimitRatio` is modelled as the integer `limit / 2`. This equals the float result for every non-negative limit up to 2^53; larger limits are not modelled.
- `GenRandStr` is not part of this model; the generated string is a parameter `rs`.
- Go's dynamic types are reduced to a reflection kind plus the kind a pointer, slice or map refers to.
- Nil references inside a non-nil interface are not modelled. A typed nil such as a nil `*T` or a nil map passes `Set`'s nil check and its kind gate and is stored, as a `Val(Ptr, …)` or `Val(Map, …)` value; `Value` cannot tell it from a non-nil reference. So the corrected `GetRandByPointer` reads a stored nil `*string` as its `data`, where the Go dereference would panic.
- Reference.Reference.GetRandByPointer: treats any pointer to a String-kinded value as `*string`, because the model does not tell named string types apart; it also reads a stored nil `*string` as its `data`, where the Go dereference would panic.
- Cache.Cache.GetRandByPointer: treats any pointer to a String-kinded value as `*string` and reads a stored nil `*string` as its `data`, for the same reasons.
- test/main.go is a demonstration program with no checked outcome and is not modelled.
