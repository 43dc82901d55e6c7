/**
 * The process-wide query cache the components share: a map from query keys
 * (a resource name followed by parameters) to entries carrying the data,
 * the time it was written and whether it has been invalidated.
 * Invalidation works by key prefix; freshness is judged against the
 * staleness window of the reader.
 */
module Cache {
  import opened Domain

  datatype KeyPart = Str(s: string) | Num(n: int)

  type QueryKey = seq<KeyPart>

  /**
   * The data held under a key. Only the `auth` entry's contents, a user or
   * null, are written by the modelled code; every other query's data is
   * whatever its query function returns, told apart by a tag.
   */
  datatype CacheValue = NullValue | UserValue(user: User) | QueryData(tag: string)

  datatype Entry = Entry(value: CacheValue, updatedAt: int, invalidated: bool)

  type Entries = map<QueryKey, Entry>

  const AuthKey: QueryKey := [Str("auth")]

  predicate HasPrefix(key: QueryKey, prefix: QueryKey)
  {
    |prefix| <= |key| && key[..|prefix|] == prefix
  }

  /** A read with staleness window `staleTime` at time `now` is served without a fetch. */
  predicate IsFresh(e: Entry, staleTime: nat, now: int)
  {
    !e.invalidated && now < e.updatedAt + staleTime
  }

  /** Marks every entry whose key starts with `prefix` as invalidated. */
  function Invalidate(entries: Entries, prefix: QueryKey): Entries
  {
    map k | k in entries :: if HasPrefix(k, prefix) then entries[k].(invalidated := true) else entries[k]
  }

  /** An entry written at `now`: fresh data, not invalidated. */
  function Written(value: CacheValue, now: int): Entry
  {
    Entry(value, now, false)
  }

  /** The outcome of one request issued by a query function. */
  datatype Attempt = Succeeded(value: CacheValue) | Failed(message: string)

  datatype FetchRun = FetchRun(value: Option<CacheValue>, calls: nat)

  /**
   * Runs the query function until it succeeds or `budget` calls have been
   * made (`retry: n` gives a budget of n + 1); `attempts` holds the outcome
   * each successive call would have, one for every call the budget allows.
   */
  function Retry(attempts: seq<Attempt>, budget: nat): (r: FetchRun)
    requires |attempts| >= budget
    ensures r.calls <= budget
    ensures budget >= 1 ==> r.calls >= 1
    ensures forall j :: 0 <= j < r.calls - 1 ==> attempts[j].Failed?
    ensures r.value.Some? ==> r.calls >= 1 && attempts[r.calls - 1] == Succeeded(r.value.value)
    ensures r.value.None? ==> r.calls == budget && forall j :: 0 <= j < budget ==> attempts[j].Failed?
    decreases budget
  {
    if budget == 0 then FetchRun(None, 0)
    else if attempts[0].Succeeded? then FetchRun(Some(attempts[0].value), 1)
    else
      var rest := Retry(attempts[1..], budget - 1);
      FetchRun(rest.value, rest.calls + 1)
  }

  datatype ReadResult = Served(value: CacheValue) | Fetched(value: CacheValue) | FetchError(previous: Option<CacheValue>)

  class QueryClient {
    var entries: Entries

    constructor()
      ensures entries == map[]
    {
      entries := map[];
    }

    /** `setQueryData(key, value)`: writes the entry directly, fresh and valid. */
    method SetQueryData(key: QueryKey, value: CacheValue, now: int)
      modifies this
      ensures entries == old(entries)[key := Written(value, now)]
    {
      entries := entries[key := Written(value, now)];
    }

    /** `invalidateQueries({ queryKey: prefix })`. */
    method InvalidateQueries(prefix: QueryKey)
      modifies this
      ensures entries == Invalidate(old(entries), prefix)
    {
      entries := Invalidate(entries, prefix);
    }

    /**
     * A query read: a fresh entry is served without calling the query
     * function; otherwise the function is called at least once and, while it
     * fails, up to `retry` more times, and a successful result is written
     * under the key. `attempts` gives the outcome of each of those calls.
     */
    method Read(key: QueryKey, staleTime: nat, retry: nat, now: int, attempts: seq<Attempt>)
      returns (r: ReadResult, calls: nat)
      requires |attempts| >= retry + 1
      modifies this
      ensures key in old(entries) && IsFresh(old(entries)[key], staleTime, now) ==>
        r == Served(old(entries)[key].value) && calls == 0 && entries == old(entries)
      ensures !(key in old(entries) && IsFresh(old(entries)[key], staleTime, now)) ==>
        var run := Retry(attempts, retry + 1);
        calls == run.calls &&
        (run.value.Some? ==> r == Fetched(run.value.value) && entries == old(entries)[key := Written(run.value.value, now)]) &&
        (run.value.None? ==> entries == old(entries) &&
                             r == FetchError(if key in old(entries) then Some(old(entries)[key].value) else None))
      ensures !(key in old(entries) && IsFresh(old(entries)[key], staleTime, now)) ==> 1 <= calls <= retry + 1
      ensures calls <= retry + 1
    {
      if key in entries && IsFresh(entries[key], staleTime, now) {
        r, calls := Served(entries[key].value), 0;
      } else {
        var run := Retry(attempts, retry + 1);
        calls := run.calls;
        if run.value.Some? {
          entries := entries[key := Written(run.value.value, now)];
          r := Fetched(run.value.value);
        } else {
          r := FetchError(if key in entries then Some(entries[key].value) else None);
        }
      }
    }
  }

  /** Invalidating the same prefix twice gives the state of invalidating it once. */
  lemma InvalidateIdempotent(m: Entries, prefix: QueryKey)
    ensures Invalidate(Invalidate(m, prefix), prefix) == Invalidate(m, prefix)
  {
    var once := Invalidate(m, prefix);
    var twice := Invalidate(once, prefix);
    assert twice.Keys == once.Keys;
    forall k | k in once ensures twice[k] == once[k] {
    }
  }

  /** Invalidation by different prefixes commutes. */
  lemma InvalidateCommutes(m: Entries, p: QueryKey, q: QueryKey)
    ensures Invalidate(Invalidate(m, p), q) == Invalidate(Invalidate(m, q), p)
  {
    var pq := Invalidate(Invalidate(m, p), q);
    var qp := Invalidate(Invalidate(m, q), p);
    assert pq.Keys == qp.Keys;
    forall k | k in pq ensures pq[k] == qp[k] {
    }
  }

  /**
   * Exactly the keys under the prefix change: the key set is kept, an entry
   * under the prefix becomes invalidated with its data and time unchanged,
   * and every other entry is untouched.
   */
  lemma InvalidateEffect(m: Entries, prefix: QueryKey, k: QueryKey)
    requires k in m
    ensures k in Invalidate(m, prefix)
    ensures HasPrefix(k, prefix) ==> Invalidate(m, prefix)[k] == m[k].(invalidated := true)
    ensures !HasPrefix(k, prefix) ==> Invalidate(m, prefix)[k] == m[k]
    ensures Invalidate(m, prefix)[k] != m[k] <==> HasPrefix(k, prefix) && !m[k].invalidated
  {
  }

  /** After invalidation no reader, whatever its window, is served from an entry under the prefix. */
  lemma InvalidatedIsStale(m: Entries, prefix: QueryKey, k: QueryKey, staleTime: nat, now: int)
    requires k in m && HasPrefix(k, prefix)
    ensures !IsFresh(Invalidate(m, prefix)[k], staleTime, now)
  {
  }

  /** Two keys whose first parts differ never share a prefix of length one. */
  lemma DistinctResource(k: QueryKey, prefix: QueryKey)
    requires |k| >= 1 && |prefix| >= 1 && k[0] != prefix[0]
    ensures !HasPrefix(k, prefix)
  {
  }
}
