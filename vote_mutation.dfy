/**
 * The vote mutation hook: it checks the ids again before calling the
 * backend, and on success invalidates the `auth`, `brands` and `user-votes`
 * cache prefixes, one after the other.
 */
module VoteMutation {
  import opened Domain
  import opened Cache

  const BrandsPrefix: QueryKey := [Str("brands")]
  const UserVotesPrefix: QueryKey := [Str("user-votes")]

  const WrongCountError := "Must select exactly 3 brands"
  const DuplicateError := "All brands must be different"

  /** `new Set(ids).size`: the number of different ids. */
  function UniqueCount(ids: seq<int>): nat
  {
    |set x | x in ids|
  }

  predicate Distinct(ids: seq<int>)
  {
    forall i, j :: 0 <= i < j < |ids| ==> ids[i] != ids[j]
  }

  /** For three ids, the set of them has three elements exactly when no two are equal. */
  lemma UniqueCountThree(ids: seq<int>)
    requires |ids| == 3
    ensures UniqueCount(ids) == 3 <==> Distinct(ids)
  {
    var s := set x | x in ids;
    assert s == {ids[0], ids[1], ids[2]};
    if ids[0] == ids[1] {
      assert s == {ids[0], ids[2]};
    } else if ids[0] == ids[2] {
      assert s == {ids[0], ids[1]};
    } else if ids[1] == ids[2] {
      assert s == {ids[0], ids[1]};
    } else {
      assert s == {ids[0]} + {ids[1]} + {ids[2]};
      assert |{ids[0]} + {ids[1]}| == 2;
    }
  }

  /**
   * `mutationFn`'s guard: `ids` is None when it is not an array. The result
   * is the list handed to `voteBrands`, or the message of the error thrown.
   */
  function MutationFn(ids: Option<seq<int>>): (r: Result<seq<int>, string>)
    ensures r.Success? <==> ids.Some? && |ids.value| == 3 && Distinct(ids.value)
    ensures r.Success? ==> r.value == ids.value
    ensures r == Failure(WrongCountError) <==> ids.None? || |ids.value| != 3
    ensures r == Failure(DuplicateError) <==> ids.Some? && |ids.value| == 3 && !Distinct(ids.value)
  {
    if ids.None? || |ids.value| != 3 then Failure(WrongCountError)
    else
      UniqueCountThree(ids.value);
      if UniqueCount(ids.value) != 3 then Failure(DuplicateError)
      else Success(ids.value)
  }

  /** The three awaited invalidations of `onSuccess`, in order. */
  function VoteInvalidations(m: Entries): Entries
  {
    Invalidate(Invalidate(Invalidate(m, AuthKey), BrandsPrefix), UserVotesPrefix)
  }

  predicate UnderVotePrefixes(k: QueryKey)
  {
    HasPrefix(k, AuthKey) || HasPrefix(k, BrandsPrefix) || HasPrefix(k, UserVotesPrefix)
  }

  /**
   * A successful vote keeps every key, invalidates exactly the entries under
   * `auth`, `brands` and `user-votes`, and leaves every other entry as it was.
   */
  lemma VoteInvalidationsExact(m: Entries, k: QueryKey)
    requires k in m
    ensures k in VoteInvalidations(m)
    ensures UnderVotePrefixes(k) ==> VoteInvalidations(m)[k] == m[k].(invalidated := true)
    ensures !UnderVotePrefixes(k) ==> VoteInvalidations(m)[k] == m[k]
  {
    InvalidateEffect(m, AuthKey, k);
    var m1 := Invalidate(m, AuthKey);
    InvalidateEffect(m1, BrandsPrefix, k);
    var m2 := Invalidate(m1, BrandsPrefix);
    InvalidateEffect(m2, UserVotesPrefix, k);
  }

  /** Invalidating `auth` once more, as the vote page does, changes nothing. */
  lemma AuthInvalidatedAgain(m: Entries)
    ensures Invalidate(VoteInvalidations(m), AuthKey) == VoteInvalidations(m)
  {
    var m1 := Invalidate(m, AuthKey);
    var m2 := Invalidate(m1, BrandsPrefix);
    InvalidateCommutes(m1, BrandsPrefix, AuthKey);
    InvalidateIdempotent(m, AuthKey);
    assert Invalidate(m2, AuthKey) == m2;
    InvalidateCommutes(m2, UserVotesPrefix, AuthKey);
  }

  /** The `useVoteBrands` mutation: the backend calls made and the shared cache. */
  class VoteBrandsMutation {
    const cache: QueryClient
    /** The `ids` of every `voteBrands` request sent, in order. */
    var requests: seq<seq<int>>

    constructor(cache: QueryClient)
      ensures this.cache == cache && requests == []
    {
      this.cache := cache;
      requests := [];
    }

    /**
     * `mutate({ ids })`; `server` is what the backend answers if it is called.
     * A rejected guard sends nothing and touches no cache entry.
     */
    method Mutate(ids: Option<seq<int>>, server: Result<VoteResponse, string>)
      returns (r: Result<VoteResponse, string>)
      modifies this, cache
      ensures MutationFn(ids).Failure? ==>
        r == Failure(MutationFn(ids).error) && requests == old(requests) && cache.entries == old(cache.entries)
      ensures MutationFn(ids).Success? ==>
        r == server && requests == old(requests) + [ids.value] &&
        cache.entries == (if server.Success? then VoteInvalidations(old(cache.entries)) else old(cache.entries))
    {
      var checked := MutationFn(ids);
      if checked.Failure? {
        r := Failure(checked.error);
        return;
      }
      requests := requests + [checked.value];
      r := server;
      if server.Success? {
        cache.InvalidateQueries(AuthKey);
        cache.InvalidateQueries(BrandsPrefix);
        cache.InvalidateQueries(UserVotesPrefix);
      }
    }
  }
}
