/**
 * The specification shared by both copies of the TTL-indexed reference
 * store: configuration constants, the values the store accepts, whether an
 * entry is live at a given clock reading, what a successful `Set` writes and
 * what one recycle cycle leaves behind.
 */
module TtlStore {
  import opened Wrappers
  import opened SortedSet

  const MaxRecords: int := 1000000
  const MinRecords: int := 10000
  const MaxTTLSecs: int := 7200
  /** The ttl a zero-ttl `Set` gives a key that holds no live entry. */
  const DefaultTTLSecs: int := 30

  /** The reflection kind of a Go value, as far as the store looks at it. */
  datatype Kind = Ptr | Slice | Map | String | Int | Bool | Float | Struct | Other

  /**
   * A value handed to the store. `kind` is its reflection kind; `target` is
   * the kind a pointer points to or a slice or map holds; `data` stands for
   * what the value refers to (the text itself for a string).
   */
  datatype Value = Nil | Val(kind: Kind, target: Kind, data: string)

  /** The errors `Set` returns, in the order its checks run. */
  datatype Error =
    | NilValue          // "value can not be nil"
    | NegativeTtl       // "ttl error"
    | UnsupportedType   // "value only support Pointer Slice and Map"

  /** What `GetRand` hands back: a string, or the panic of a failed type assertion. */
  datatype RandRead = Text(text: string) | Panics

  type Store = Index<Value>

  /** The kinds the type gate of `Set` lets through. */
  predicate IsReference(k: Kind) {
    k == Ptr || k == Slice || k == Map
  }

  /** The value is a `*string`. */
  predicate IsStringPointer(v: Value) {
    v.Val? && v.kind == Ptr && v.target == String
  }

  /** An entry is live while its expiry time (its score) lies after `now`. */
  predicate Live(s: Store, key: string, now: int) {
    key in s && now < s[key].score
  }

  /** Everything stored is a non-nil interface value of kind Ptr, Slice or Map. */
  ghost predicate ReferencesOnly(s: Store) {
    forall k :: k in s ==> s[k].value.Val? && IsReference(s[k].value.kind)
  }

  /** The first of `Set`'s three input checks that fails, if any. */
  function Rejection(value: Value, ttl: int): (r: Option<Error>)
    ensures r == None <==> value.Val? && 0 <= ttl && IsReference(value.kind)
  {
    if value.Nil? then Some(NilValue)
    else if ttl < 0 then Some(NegativeTtl)
    else if !IsReference(value.kind) then Some(UnsupportedType)
    else None
  }

  function ClampTtl(ttl: int): int {
    if ttl > MaxTTLSecs then MaxTTLSecs else ttl
  }

  /**
   * The expiry time a successful `Set` gives `key`: a positive ttl counts
   * from `now` after clamping; a zero ttl keeps a live entry's expiry time
   * and otherwise falls back to the default ttl.
   */
  function ExpireAt(s: Store, key: string, ttl: int, now: int): int {
    if ttl == 0 then
      if Live(s, key, now) then s[key].score else now + DefaultTTLSecs
    else
      now + ClampTtl(ttl)
  }

  /** The store after `Set(key, value, ttl)` at time `now`, or the error it returns. */
  function SetSpec(s: Store, key: string, value: Value, ttl: int, now: int): (r: Result<Store, Error>)
    ensures r.Failure? <==> Rejection(value, ttl).Some?
    ensures r.Success? ==> r.value.Keys == s.Keys + {key}
    ensures r.Success? ==> forall k :: k in s && k != key ==> r.value[k] == s[k]
    ensures r.Success? ==> Live(r.value, key, now) && r.value[key].value == value
  {
    match Rejection(value, ttl)
    case Some(e) => Failure(e)
    case None => Success(s[key := Entry(ExpireAt(s, key, ttl, now), value)])
  }

  /** The checks run in the source's order: nil value, then negative ttl, then the type gate. */
  lemma SetErrors(s: Store, key: string, value: Value, ttl: int, now: int)
    ensures value.Nil? ==> SetSpec(s, key, value, ttl, now) == Failure(NilValue)
    ensures value.Val? && ttl < 0 ==> SetSpec(s, key, value, ttl, now) == Failure(NegativeTtl)
    ensures value.Val? && 0 <= ttl && !IsReference(value.kind) ==>
              SetSpec(s, key, value, ttl, now) == Failure(UnsupportedType)
    ensures value.Val? && 0 <= ttl && IsReference(value.kind) ==> SetSpec(s, key, value, ttl, now).Success?
  {
  }

  /** A positive ttl stores `now + min(ttl, MaxTTLSecs)` whatever the key held before. */
  lemma SetPositiveTtl(s: Store, key: string, value: Value, ttl: int, now: int)
    requires value.Val? && IsReference(value.kind) && 0 < ttl
    ensures SetSpec(s, key, value, ttl, now).Success?
    ensures SetSpec(s, key, value, ttl, now).value[key] ==
              Entry(now + (if ttl <= MaxTTLSecs then ttl else MaxTTLSecs), value)
  {
  }

  /** A ttl above the ceiling behaves exactly like the ceiling. */
  lemma SetClampsTtl(s: Store, key: string, value: Value, ttl: int, now: int)
    requires ttl > MaxTTLSecs
    ensures SetSpec(s, key, value, ttl, now) == SetSpec(s, key, value, MaxTTLSecs, now)
  {
  }

  /** A zero ttl keeps a live entry's expiry time and replaces only its value. */
  lemma SetZeroKeepsLive(s: Store, key: string, value: Value, now: int)
    requires value.Val? && IsReference(value.kind) && Live(s, key, now)
    ensures SetSpec(s, key, value, 0, now) == Success(s[key := Entry(s[key].score, value)])
  {
  }

  /** A zero ttl on an absent or expired key gives it the default ttl. */
  lemma SetZeroDefaults(s: Store, key: string, value: Value, now: int)
    requires value.Val? && IsReference(value.kind) && !Live(s, key, now)
    ensures SetSpec(s, key, value, 0, now) == Success(s[key := Entry(now + DefaultTTLSecs, value)])
  {
  }

  /** A successful `Set` keeps the store free of nil and non-reference values. */
  lemma SetKeepsReferencesOnly(s: Store, key: string, value: Value, ttl: int, now: int)
    requires ReferencesOnly(s) && SetSpec(s, key, value, ttl, now).Success?
    ensures ReferencesOnly(SetSpec(s, key, value, ttl, now).value)
  {
  }

  /**
   * One recycle cycle: drop every entry with score at most `now`; then, if
   * at least `limit` entries remain, evict the `(n - limit) + limit / 2`
   * lowest-scored of the `n` survivors.
   */
  ghost predicate Recycled(before: Store, after: Store, limit: int, now: int)
    requires 0 <= limit
  {
    var swept := RemoveByScore(before, now);
    if |swept| >= limit then LowestRemoved(swept, after, (|swept| - limit) + limit / 2)
    else after == swept
  }

  /**
   * After a cycle nothing expired is left, only entries of the old store
   * survive, an eviction leaves exactly `limit - limit / 2` entries, the
   * store holds at most `limit` entries (fewer once `limit >= 2`), and no
   * removed entry outlives a surviving one.
   */
  lemma RecycledProperties(before: Store, after: Store, limit: int, now: int)
    requires 0 <= limit && Recycled(before, after, limit, now)
    ensures SubIndex(after, before)
    ensures forall k :: k in after ==> now < after[k].score
    ensures |RemoveByScore(before, now)| >= limit ==> |after| == limit - limit / 2
    ensures |after| <= limit && (2 <= limit ==> |after| < limit)
    ensures RemovedNotAbove(before, after)
  {
  }

  /** Recycling keeps the store free of nil and non-reference values. */
  lemma RecycledKeepsReferencesOnly(before: Store, after: Store, limit: int, now: int)
    requires 0 <= limit && ReferencesOnly(before) && Recycled(before, after, limit, now)
    ensures ReferencesOnly(after)
  {
    RecycledProperties(before, after, limit, now);
  }
}
