/**
 * `Cache` (cache.go): the TTL-indexed store whose `Get` also reports
 * whether the key was found. The clock is the parameter `now`.
 */
module Cache {
  import opened Wrappers
  import opened SortedSet
  import opened TtlStore

  class Cache {
    /** The score index: key to (expiry time, value). */
    var s: Store
    /** The entry count at which a recycle cycle starts evicting. */
    var limit: int

    ghost predicate Valid()
      reads this
    {
      MinRecords <= limit && ReferencesOnly(s)
    }

    /** `New`: an empty store whose limit is `MaxRecords`. */
    constructor ()
      ensures Valid() && s == map[] && limit == MaxRecords
    {
      s := map[];
      limit := MaxRecords;
    }

    /** Sets the eviction limit, raised to `MinRecords` when below it. */
    method SetMaxRecords(l: int)
      requires Valid()
      modifies this
      ensures Valid() && s == old(s)
      ensures limit == if l < MinRecords then MinRecords else l
    {
      var l' := l;
      if l' < MinRecords {
        l' := MinRecords;
      }
      limit := l';
    }

    /** The live value, its remaining seconds and `true`, or `(Nil, 0, false)` when the key is absent or expired. */
    function Get(key: string, now: int): (r: (Value, int, bool))
      reads this
      ensures r.2 <==> Live(s, key, now)
      ensures !r.2 ==> r.0 == Nil && r.1 == 0
      ensures r.2 ==> r.0 == s[key].value && r.1 == s[key].score - now && 0 < r.1
      ensures Valid() && r.2 ==> r.0.Val? && IsReference(r.0.kind)
    {
      if key !in s then (Nil, 0, false)
      else if s[key].score <= now then (Nil, 0, false)
      else (s[key].value, s[key].score - now, true)
    }

    /** `ttl`: the remaining seconds of a live key, or `(0, false)`. */
    function Ttl(key: string, now: int): (r: (int, bool))
      reads this
      ensures r.1 <==> Live(s, key, now)
      ensures r.1 ==> r.0 == s[key].score - now && 0 < r.0
      ensures !r.1 ==> r.0 == 0
    {
      if key !in s then (0, false)
      else
        var ttl := s[key].score - now;
        if ttl <= 0 then (0, false) else (ttl, true)
    }

    /** Checks the value and ttl, then upserts `key`; on an error nothing changes. */
    method Set(key: string, value: Value, ttl: int, now: int) returns (err: Option<Error>)
      requires Valid()
      modifies this
      ensures Valid() && limit == old(limit)
      ensures match SetSpec(old(s), key, value, ttl, now)
              case Failure(e) => err == Some(e) && s == old(s)
              case Success(s') => err == None && s == s'
    {
      if value.Nil? {
        return Some(NilValue);
      }
      if ttl < 0 {
        return Some(NegativeTtl);
      }
      if !IsReference(value.kind) {
        return Some(UnsupportedType);
      }
      var t := ttl;
      if t > MaxTTLSecs {
        t := MaxTTLSecs;
      }
      var expireTime;
      if t == 0 {
        var left := Ttl(key, now);
        var ttlLeft := left.0;
        if !left.1 {
          ttlLeft := DefaultTTLSecs;
        }
        expireTime := now + ttlLeft;
      } else {
        expireTime := now + t;
      }
      s := s[key := Entry(expireTime, value)];
      SetKeepsReferencesOnly(old(s), key, value, ttl, now);
      return None;
    }

    /** Removes `key`; a missing key leaves the store as it is. */
    method Delete(key: string)
      requires Valid()
      modifies this
      ensures Valid() && limit == old(limit)
      ensures s == old(s) - {key}
      ensures key !in old(s) ==> s == old(s)
    {
      s := s - {key};
    }

    /** One cycle of the recycle loop: sweep what expired by `now`, then evict down if over the limit. */
    method Recycle(now: int)
      requires Valid()
      modifies this
      ensures Valid() && limit == old(limit)
      ensures Recycled(old(s), s, limit, now)
      ensures forall k :: k in s ==> k in old(s) && s[k] == old(s)[k] && now < s[k].score
      ensures |RemoveByScore(old(s), now)| >= limit ==> |s| == limit - limit / 2
      ensures |s| < limit
      ensures RemovedNotAbove(old(s), s)
    {
      s := RemoveByScore(s, now);
      if |s| >= limit {
        var deleteCount := (|s| - limit) + limit / 2;
        s := RemoveLowest(s, deleteCount);
      }
      RecycledProperties(old(s), s, limit, now);
    }

    /** The number of stored entries, expired ones not yet swept included. */
    function GetLen(): (r: nat)
      reads this
      ensures r == |s|
    {
      |s|
    }

    /**
     * Stores the generated string `rs` under `key` and returns it. The
     * string itself goes to `Set`, whose type gate refuses it; the error is
     * dropped and the store never changes.
     */
    method SetRand(key: string, ttl: int, rs: string, now: int) returns (r: string)
      requires Valid()
      modifies this
      ensures Valid() && limit == old(limit)
      ensures r == rs && s == old(s)
    {
      var _ := Set(key, Val(String, String, rs), ttl, now);
      r := rs;
    }

    /** Reads `key` back as a string: `""` when not found, a panic unless the stored value is a string. */
    function GetRand(key: string, now: int): (r: RandRead)
      reads this
      ensures !Live(s, key, now) ==> r == Text("")
      ensures Valid() && Live(s, key, now) ==> r == Panics
    {
      var (v, _, exist) := Get(key, now);
      if !exist then Text("")
      else if v.Val? && v.kind == String then Text(v.data)
      else Panics
    }

    /** The corrected `SetRand`: it stores a pointer to the generated string. */
    method SetRandByPointer(key: string, ttl: int, rs: string, now: int) returns (r: string)
      requires Valid()
      modifies this
      ensures Valid() && limit == old(limit)
      ensures r == rs
      ensures match SetSpec(old(s), key, Val(Ptr, String, rs), ttl, now)
              case Failure(_) => s == old(s)
              case Success(s') => s == s'
      ensures 0 <= ttl ==> GetRandByPointer(key, now) == Text(rs)
      ensures ttl < 0 ==> s == old(s)
    {
      var _ := Set(key, Val(Ptr, String, rs), ttl, now);
      r := rs;
    }

    /** The corrected `GetRand`: it dereferences a stored string pointer. */
    function GetRandByPointer(key: string, now: int): (r: RandRead)
      reads this
      ensures !Live(s, key, now) ==> r == Text("")
      ensures Live(s, key, now) && IsStringPointer(s[key].value) ==> r == Text(s[key].value.data)
      ensures Valid() && Live(s, key, now) && !IsStringPointer(s[key].value) ==> r == Panics
    {
      var (v, _, exist) := Get(key, now);
      if !exist then Text("")
      else if IsStringPointer(v) then Text(v.data)
      else Panics
    }
  }

  /** The round trip as written: `GetRand` reads back `""` whatever string `SetRand` generated. */
  method RandRoundTripAsWritten(key: string, rs: string, now: int) returns (got: RandRead)
    ensures got == Text("")
  {
    var store := new Cache();
    var stored := store.SetRand(key, 10, rs, now);
    got := store.GetRand(key, now);
  }

  /** The round trip with the corrected pair: the generated string comes back. */
  method RandRoundTripByPointer(key: string, rs: string, now: int) returns (got: RandRead)
    ensures got == Text(rs)
  {
    var store := new Cache();
    var stored := store.SetRandByPointer(key, 10, rs, now);
    got := store.GetRandByPointer(key, now);
  }
}
