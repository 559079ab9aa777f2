/**
 * The dashboard page (src/app/dashboard/page.tsx): the signed-in user's list
 * of ads with its `loading` and `error` banners, filled by `fetchAds` and
 * shrunk by `handleDelete`.
 *
 * The backend queries become outcome arguments; the requests the page sends
 * are recorded in `fetchRequests` and `deleteRequests`.
 */
module Dashboard {
  import opened Wrappers
  import opened AdRecord

  const FetchFailedMessage := "Failed to fetch ads"
  const DeleteFailedMessage := "Failed to delete ad"

  // ---------------------------------------------------------------- optimistic removal

  /** `ads.filter(ad => ad.id !== id)`. */
  function WithoutId(ads: seq<Ad>, id: string): (r: seq<Ad>)
    ensures |r| <= |ads|
  {
    if ads == [] then []
    else if ads[0].id == id then WithoutId(ads[1..], id)
    else [ads[0]] + WithoutId(ads[1..], id)
  }

  /** How many ads in the list carry `id`. */
  function CountId(ads: seq<Ad>, id: string): (n: nat)
    ensures n <= |ads|
  {
    if ads == [] then 0
    else (if ads[0].id == id then 1 else 0) + CountId(ads[1..], id)
  }

  /**
   * The removal leaves exactly the ads whose id differs, and the list
   * shrinks by exactly the number of ads that carry `id`.
   */
  lemma {:induction false} WithoutIdMembers(ads: seq<Ad>, id: string)
    ensures forall a :: a in WithoutId(ads, id) <==> a in ads && a.id != id
    ensures |WithoutId(ads, id)| == |ads| - CountId(ads, id)
  {
    if ads != [] {
      WithoutIdMembers(ads[1..], id);
      assert ads == [ads[0]] + ads[1..];
    }
  }

  /** No ad carries `id` exactly when none is counted. */
  lemma {:induction false} CountIdZeroIff(ads: seq<Ad>, id: string)
    ensures CountId(ads, id) == 0 <==> forall a :: a in ads ==> a.id != id
  {
    if ads != [] {
      CountIdZeroIff(ads[1..], id);
      assert ads == [ads[0]] + ads[1..];
    }
  }

  lemma SplitAround<T>(s: seq<T>, i: nat)
    requires i < |s|
    ensures s == s[..i] + ([s[i]] + s[i + 1..])
  {
  }

  /** Where the ad at position `i` lands after the removal: the number of ads kept before it. */
  function Rank(ads: seq<Ad>, id: string, i: nat): nat
    requires i <= |ads|
  {
    |WithoutId(ads[..i], id)|
  }

  /** An ad that is kept lands at its rank. */
  lemma WithoutIdPosition(ads: seq<Ad>, id: string, i: nat)
    requires i < |ads| && ads[i].id != id
    ensures Rank(ads, id, i) < |WithoutId(ads, id)|
    ensures WithoutId(ads, id)[Rank(ads, id, i)] == ads[i]
  {
    SplitAround(ads, i);
    WithoutIdConcat(ads[..i], [ads[i]] + ads[i + 1..], id);
    WithoutIdConcat([ads[i]], ads[i + 1..], id);
    assert WithoutId([ads[i]], id) == [ads[i]];
  }

  /**
   * The removal keeps the other ads in their original relative order: of two
   * kept ads, the earlier one still comes first.
   */
  lemma WithoutIdKeepsOrder(ads: seq<Ad>, id: string, i: nat, j: nat)
    requires i < j < |ads| && ads[i].id != id && ads[j].id != id
    ensures Rank(ads, id, i) < Rank(ads, id, j) < |WithoutId(ads, id)|
    ensures WithoutId(ads, id)[Rank(ads, id, i)] == ads[i]
    ensures WithoutId(ads, id)[Rank(ads, id, j)] == ads[j]
  {
    WithoutIdPosition(ads, id, i);
    WithoutIdPosition(ads, id, j);
    var p := ads[..j];
    SplitAround(p, i);
    assert p[..i] == ads[..i] && p[i] == ads[i];
    WithoutIdConcat(p[..i], [p[i]] + p[i + 1..], id);
    WithoutIdConcat([p[i]], p[i + 1..], id);
    assert WithoutId([p[i]], id) == [p[i]];
  }

  /** Every ad other than those carrying `id` keeps its multiplicity; those carrying `id` are gone. */
  lemma {:induction false} WithoutIdMultiset(ads: seq<Ad>, id: string)
    ensures forall a :: multiset(WithoutId(ads, id))[a] == if a.id == id then 0 else multiset(ads)[a]
  {
    if ads != [] {
      WithoutIdMultiset(ads[1..], id);
      assert ads == [ads[0]] + ads[1..];
    }
  }

  /** Removing by id distributes over concatenation: each part of the list is filtered on its own. */
  lemma {:induction false} WithoutIdConcat(p: seq<Ad>, q: seq<Ad>, id: string)
    ensures WithoutId(p + q, id) == WithoutId(p, id) + WithoutId(q, id)
  {
    if p == [] {
      assert p + q == q;
    } else {
      var pq := p + q;
      assert pq[0] == p[0] && pq[1..] == p[1..] + q;
      WithoutIdConcat(p[1..], q, id);
      var head := if p[0].id == id then [] else [p[0]];
      assert WithoutId(pq, id) == head + (WithoutId(p[1..], id) + WithoutId(q, id));
      assert WithoutId(p, id) == head + WithoutId(p[1..], id);
      assert head + (WithoutId(p[1..], id) + WithoutId(q, id)) == (head + WithoutId(p[1..], id)) + WithoutId(q, id);
    }
  }

  /** Removing an id that no ad carries changes nothing. */
  lemma {:induction false} WithoutAbsentId(ads: seq<Ad>, id: string)
    requires forall a :: a in ads ==> a.id != id
    ensures WithoutId(ads, id) == ads
  {
    if ads != [] {
      assert ads == [ads[0]] + ads[1..];
      WithoutAbsentId(ads[1..], id);
    }
  }

  /** Deleting the same id twice is the same as deleting it once. */
  lemma WithoutIdIdempotent(ads: seq<Ad>, id: string)
    ensures WithoutId(WithoutId(ads, id), id) == WithoutId(ads, id)
  {
    WithoutIdMembers(ads, id);
    WithoutAbsentId(WithoutId(ads, id), id);
  }

  // ---------------------------------------------------------------- the page

  /** How the awaited `select` query ended: its `data` (possibly null), or an error. */
  datatype FetchOutcome = Fetched(data: Option<seq<Ad>>) | FetchFailed

  /** How the awaited `delete` query ended. */
  datatype DeleteOutcome = Deleted | DeleteFailed

  class DashboardPage {
    var ads: seq<Ad>
    var loading: bool
    var error: string
    /** How many `select` queries the page has sent. */
    var fetchRequests: nat
    /** The id of every `delete` query the page has sent, in order. */
    var deleteRequests: seq<string>

    /** Mounting the page: the initial `useState` values. */
    constructor ()
      ensures ads == [] && loading && error == ""
      ensures fetchRequests == 0 && deleteRequests == []
    {
      ads := [];
      loading := true;
      error := "";
      fetchRequests := 0;
      deleteRequests := [];
    }

    /** The `useEffect` on `user`: fetch only when someone is signed in. */
    method OnUserChanged(user: Option<string>, outcome: FetchOutcome)
      modifies this
      ensures user.None? ==>
        ads == old(ads) && loading == old(loading) && error == old(error)
        && fetchRequests == old(fetchRequests) && deleteRequests == old(deleteRequests)
      ensures user.Some? ==> FetchCompleted(outcome)
    {
      if user.Some? {
        FetchAds(outcome);
      }
    }

    /** The state after one `select` query that ended with `outcome`. */
    twostate predicate FetchCompleted(outcome: FetchOutcome)
      reads this
    {
      && fetchRequests == old(fetchRequests) + 1
      && deleteRequests == old(deleteRequests)
      && !loading
      && (outcome.Fetched? ==> ads == outcome.data.GetOr([]) && error == old(error))
      && (outcome.FetchFailed? ==> ads == old(ads) && error == FetchFailedMessage)
    }

    /** `fetchAds`. */
    method FetchAds(outcome: FetchOutcome)
      modifies this
      ensures FetchCompleted(outcome)
    {
      fetchRequests := fetchRequests + 1;
      match outcome {
        case Fetched(data) =>
          ads := data.GetOr([]);
        case FetchFailed =>
          error := FetchFailedMessage;
      }
      loading := false;
    }

    /** `handleDelete(id)`, with `confirmed` the answer to `confirm()`. */
    method HandleDelete(id: string, confirmed: bool, outcome: DeleteOutcome)
      modifies this
      ensures loading == old(loading) && fetchRequests == old(fetchRequests)
      ensures !confirmed ==>
        ads == old(ads) && error == old(error) && deleteRequests == old(deleteRequests)
      ensures confirmed ==> deleteRequests == old(deleteRequests) + [id]
      ensures confirmed && outcome.Deleted? ==> ads == WithoutId(old(ads), id) && error == old(error)
      ensures confirmed && outcome.Deleted? ==> forall a :: a in ads ==> a.id != id
      ensures confirmed && outcome.DeleteFailed? ==> ads == old(ads) && error == DeleteFailedMessage
    {
      if !confirmed {
        return;
      }
      deleteRequests := deleteRequests + [id];
      match outcome {
        case Deleted =>
          WithoutIdMembers(ads, id);
          ads := WithoutId(ads, id);
        case DeleteFailed =>
          error := DeleteFailedMessage;
      }
    }
  }
}
