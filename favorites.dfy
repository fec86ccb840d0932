/** The favourites of the signed-in user: the set of favourite advertisement
    IDs held by `AdvertisementProvider`, toggled optimistically and rolled
    back when the server call fails; the heart button that toggles one; and
    the page that lists the favourite advertisements. Server calls are given
    as their results (`None` when the call rejects). */
module Favorites {
  import opened Common
  import opened Advertisements

  /** One entry of `GET /favorite/me`. */
  datatype FavoriteDto = FavoriteDto(advertisementId: string)

  /** A favourites call sent to the server. */
  datatype FavoriteCall = AddFavorite(id: string) | RemoveFavorite(id: string)

  /** A toggle whose server call has not settled yet, with what the
      membership of `id` was when it started. */
  datatype PendingToggle = PendingToggle(id: string, wasFavorite: bool)

  /** The optimistic step: copy the set and delete `id` from it, or add it. */
  function Flip(ids: set<string>, id: string): (r: set<string>)
    ensures id in r <==> id !in ids
    ensures forall x :: x != id ==> (x in r <==> x in ids)
  {
    if id in ids then ids - {id} else ids + {id}
  }

  /** The rollback in `catch`: put back the membership `id` had before. */
  function Rollback(ids: set<string>, p: PendingToggle): (r: set<string>)
    ensures p.id in r <==> p.wasFavorite
    ensures forall x :: x != p.id ==> (x in r <==> x in ids)
  {
    if p.wasFavorite then ids + {p.id} else ids - {p.id}
  }

  /** The call the toggle makes: remove a favourite, or add one. */
  function CallFor(p: PendingToggle): (c: FavoriteCall)
    ensures c.id == p.id
    ensures c.RemoveFavorite? <==> p.wasFavorite
  {
    if p.wasFavorite then RemoveFavorite(p.id) else AddFavorite(p.id)
  }

  /** The favourite IDs of a `/favorite/me` answer; duplicates collapse. */
  function IdsOf(dtos: seq<FavoriteDto>): (r: set<string>)
    ensures forall i :: 0 <= i < |dtos| ==> dtos[i].advertisementId in r
    ensures forall x :: x in r ==> exists i :: 0 <= i < |dtos| && dtos[i].advertisementId == x
    ensures |r| <= |dtos|
  {
    if dtos == [] then {}
    else
      var rest := IdsOf(dtos[1..]);
      assert forall x :: x in rest ==> exists i :: 0 <= i < |dtos| && dtos[i].advertisementId == x by {
        forall x | x in rest ensures exists i :: 0 <= i < |dtos| && dtos[i].advertisementId == x {
          var i :| 0 <= i < |dtos[1..]| && dtos[1..][i].advertisementId == x;
          assert dtos[i + 1].advertisementId == x;
        }
      }
      {dtos[0].advertisementId} + rest
  }

  /** Flipping twice is no change. */
  lemma FlipInvolution(ids: set<string>, id: string)
    ensures Flip(Flip(ids, id), id) == ids
  {
  }

  /** A failed toggle ends where it began: the rollback undoes the optimistic
      step. */
  lemma RollbackUndoesFlip(ids: set<string>, id: string)
    ensures Rollback(Flip(ids, id), PendingToggle(id, id in ids)) == ids
  {
  }

  /** The rollback of a failed toggle of `a` keeps a toggle of another
      advertisement `b` made while the call of `a` was under way. */
  lemma RollbackKeepsOtherToggles(ids: set<string>, a: string, b: string)
    requires a != b
    ensures Rollback(Flip(Flip(ids, a), b), PendingToggle(a, a in ids)) == Flip(ids, b)
  {
  }

  /** The provider's state, changed by its functions. */
  class AdvertisementStore {
    var ads: seq<Advertisement>
    var favoriteIds: set<string>
    var loading: bool
    /** The favourites calls sent, in order. */
    var calls: seq<FavoriteCall>
    /** The `alert` messages shown, in order. */
    var alerts: seq<string>

    constructor ()
      ensures ads == [] && favoriteIds == {} && loading && calls == [] && alerts == []
    {
      ads := [];
      favoriteIds := {};
      loading := true;
      calls := [];
      alerts := [];
    }

    /** `fetchAds`, with `getAllAds`'s result: the list is replaced only on
        success, and loading is over on both paths. */
    method FetchAds(reply: Option<seq<Advertisement>>)
      modifies this
      ensures ads == (if reply.Some? then reply.value else old(ads))
      ensures !loading
      ensures favoriteIds == old(favoriteIds) && calls == old(calls) && alerts == old(alerts)
    {
      loading := true;
      match reply {
        case Some(data) =>
          ads := data;
        case None =>
      }
      loading := false;
    }

    /** `fetchFavorites`, with whether a user is signed in and
        `getMyFavorites`'s result: nobody signed in gives the empty set, a
        successful answer its IDs, and a failed one keeps the set. */
    method FetchFavorites(loggedIn: bool, reply: Option<seq<FavoriteDto>>)
      modifies this
      ensures favoriteIds == (if !loggedIn then {} else if reply.Some? then IdsOf(reply.value) else old(favoriteIds))
      ensures ads == old(ads) && loading == old(loading) && calls == old(calls) && alerts == old(alerts)
    {
      if !loggedIn {
        favoriteIds := {};
        return;
      }
      match reply {
        case Some(data) =>
          favoriteIds := IdsOf(data);
        case None =>
      }
    }

    /** `toggleFavorite(id)` up to the server call: without a user it only
        alerts; otherwise it flips `id` at once and sends the matching call.
        The returned toggle is completed by `CompleteToggle` when the call
        settles. */
    method ToggleFavorite(loggedIn: bool, id: string) returns (pending: Option<PendingToggle>)
      modifies this
      ensures !loggedIn ==>
        pending.None? && favoriteIds == old(favoriteIds) && calls == old(calls)
        && alerts == old(alerts) + ["Zaloguj się!"]
      ensures loggedIn ==>
        pending == Some(PendingToggle(id, id in old(favoriteIds)))
        && favoriteIds == Flip(old(favoriteIds), id)
        && calls == old(calls) + [CallFor(pending.value)]
        && alerts == old(alerts)
      ensures ads == old(ads) && loading == old(loading)
    {
      if !loggedIn {
        alerts := alerts + ["Zaloguj się!"];
        return None;
      }
      var isCurrentlyFavorite := id in favoriteIds;
      var p := PendingToggle(id, isCurrentlyFavorite);
      favoriteIds := Flip(favoriteIds, id);
      calls := calls + [CallFor(p)];
      pending := Some(p);
    }

    /** The rest of `toggleFavorite` once its call has settled: on failure the
        membership of the toggled ID is put back, on success nothing changes. */
    method CompleteToggle(p: PendingToggle, failed: bool)
      modifies this
      ensures favoriteIds == (if failed then Rollback(old(favoriteIds), p) else old(favoriteIds))
      ensures ads == old(ads) && loading == old(loading) && calls == old(calls) && alerts == old(alerts)
    {
      if failed {
        favoriteIds := Rollback(favoriteIds, p);
      }
    }
  }

  /** `isFavorite` of the heart button. */
  predicate IsFavorite(favoriteIds: set<string>, adId: string) {
    adId in favoriteIds
  }

  /** What a click on the heart button does, in order. */
  datatype ClickEffect = PreventDefault | StopPropagation | LoginToast | Toggle(id: string)

  /** `handleClick`. */
  function Click(loggedIn: bool, adId: string): seq<ClickEffect> {
    [PreventDefault, StopPropagation] + (if loggedIn then [Toggle(adId)] else [LoginToast])
  }

  /** Every click first stops the event from following the card's link;
      then a signed-in user's click toggles this advertisement exactly once,
      and anyone else's click only shows the sign-in toast. */
  lemma ClickEffects(loggedIn: bool, adId: string)
    ensures var e := Click(loggedIn, adId);
      && e[0] == PreventDefault && e[1] == StopPropagation
      && (loggedIn <==> exists i :: 0 <= i < |e| && e[i].Toggle?)
      && (forall i :: 0 <= i < |e| && e[i].Toggle? ==> e[i].id == adId)
      && (loggedIn ==> |e| == 3 && e[2] == Toggle(adId))
      && (!loggedIn ==> e == [PreventDefault, StopPropagation, LoginToast])
  {
    var e := Click(loggedIn, adId);
    if loggedIn {
      assert e[2].Toggle?;
    }
  }

  /** `favoriteAds` of the favourites page. */
  function FavoriteAds(ads: seq<Advertisement>, favoriteIds: set<string>): seq<Advertisement> {
    Filter(ads, (ad: Advertisement) => ad.advertisementId in favoriteIds)
  }

  /** The page lists exactly the advertisements whose ID is a favourite, in
      the order of `ads` and never more of them. */
  lemma FavoriteAdsExactly(ads: seq<Advertisement>, favoriteIds: set<string>, ad: Advertisement)
    ensures ad in FavoriteAds(ads, favoriteIds) <==> ad in ads && ad.advertisementId in favoriteIds
    ensures IsSubsequence(FavoriteAds(ads, favoriteIds), ads)
    ensures |FavoriteAds(ads, favoriteIds)| <= |ads|
  {
    FilterMembership(ads, (a: Advertisement) => a.advertisementId in favoriteIds, ad);
    FilterIsSubsequence(ads, (a: Advertisement) => a.advertisementId in favoriteIds);
  }

  /** What the favourites page shows. */
  datatype PageView = Spinner | Cards(ads: seq<Advertisement>) | EmptyState

  function FavoritesPage(loading: bool, ads: seq<Advertisement>, favoriteIds: set<string>): PageView {
    if loading then Spinner
    else
      var favorites := FavoriteAds(ads, favoriteIds);
      if |favorites| > 0 then Cards(favorites) else EmptyState
  }

  /** While loading only the spinner shows; with no favourites the empty-list
      message shows; and the cards shown are the favourite advertisements. */
  lemma FavoritesPageCases(loading: bool, ads: seq<Advertisement>, favoriteIds: set<string>)
    ensures loading ==> FavoritesPage(loading, ads, favoriteIds) == Spinner
    ensures !loading && favoriteIds == {} ==> FavoritesPage(loading, ads, favoriteIds) == EmptyState
    ensures FavoritesPage(loading, ads, favoriteIds).Cards? ==>
      forall i :: 0 <= i < |FavoritesPage(loading, ads, favoriteIds).ads| ==>
        FavoritesPage(loading, ads, favoriteIds).ads[i].advertisementId in favoriteIds
  {
    if favoriteIds == {} {
      FilterNone(ads, (a: Advertisement) => a.advertisementId in favoriteIds);
    }
  }
}
