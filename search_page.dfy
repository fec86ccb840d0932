/** `SearchPage`: five filter fields initialised from the URL's query
    string, written back to it by "apply" and emptied by "clear", and the
    advertisement query derived from the URL. The query string is a map from
    key to value (the first value of a key, as `URLSearchParams.get` reads
    it). */
module SearchPage {
  import opened Common
  import opened Advertisements

  const TitleKey: string := "title"
  const LocationKey: string := "location"
  const MinPriceKey: string := "minPrice"
  const MaxPriceKey: string := "maxPrice"
  const CategoryIdKey: string := "categoryId"

  predicate IsFilterKey(k: string) {
    k == TitleKey || k == LocationKey || k == MinPriceKey || k == MaxPriceKey || k == CategoryIdKey
  }

  /** The five text fields of the page. */
  datatype Fields = Fields(title: string, location: string, minPrice: string, maxPrice: string, categoryId: string)

  const Cleared: Fields := Fields("", "", "", "", "")

  /** The field stored under a filter key. */
  function FieldAt(f: Fields, k: string): string
    requires IsFilterKey(k)
  {
    if k == TitleKey then f.title
    else if k == LocationKey then f.location
    else if k == MinPriceKey then f.minPrice
    else if k == MaxPriceKey then f.maxPrice
    else f.categoryId
  }

  /** `searchParams.get(key) || ""`. */
  function GetOrEmpty(params: map<string, string>, k: string): string {
    if k in params then params[k] else ""
  }

  /** The fields' initial values. */
  function FieldsFromUrl(params: map<string, string>): (f: Fields)
    ensures forall k :: IsFilterKey(k) ==> FieldAt(f, k) == GetOrEmpty(params, k)
  {
    Fields(GetOrEmpty(params, TitleKey), GetOrEmpty(params, LocationKey), GetOrEmpty(params, MinPriceKey),
           GetOrEmpty(params, MaxPriceKey), GetOrEmpty(params, CategoryIdKey))
  }

  /** The record `handleApplyFilters` hands to `setSearchParams`. */
  function ParamsOf(f: Fields): (params: map<string, string>)
    ensures forall k :: k in params ==> IsFilterKey(k)
    ensures forall k :: IsFilterKey(k) ==> (k in params <==> FieldAt(f, k) != "")
    ensures forall k :: k in params ==> params[k] == FieldAt(f, k)
  {
    var p0: map<string, string> := map[];
    var p1 := if f.title != "" then p0[TitleKey := f.title] else p0;
    var p2 := if f.location != "" then p1[LocationKey := f.location] else p1;
    var p3 := if f.minPrice != "" then p2[MinPriceKey := f.minPrice] else p2;
    var p4 := if f.maxPrice != "" then p3[MaxPriceKey := f.maxPrice] else p3;
    if f.categoryId != "" then p4[CategoryIdKey := f.categoryId] else p4
  }

  /** Applying right after clearing leaves no parameter in the URL. */
  lemma ApplyAfterClearIsEmpty()
    ensures ParamsOf(Cleared) == map[]
  {
  }

  /** Fields written to the URL are read back unchanged: empty fields are
      left out of the URL and come back as "". */
  lemma FieldsSurviveUrl(f: Fields)
    ensures FieldsFromUrl(ParamsOf(f)) == f
  {
    var g := FieldsFromUrl(ParamsOf(f));
    assert FieldAt(g, TitleKey) == FieldAt(f, TitleKey);
    assert FieldAt(g, LocationKey) == FieldAt(f, LocationKey);
    assert FieldAt(g, MinPriceKey) == FieldAt(f, MinPriceKey);
    assert FieldAt(g, MaxPriceKey) == FieldAt(f, MaxPriceKey);
    assert FieldAt(g, CategoryIdKey) == FieldAt(f, CategoryIdKey);
  }

  /** Reading the fields from a URL and applying them again gives back the
      URL's non-empty filter entries, and drops its empty ones and every key
      that is not a filter. */
  lemma UrlRoundTrip(params: map<string, string>)
    ensures var r := ParamsOf(FieldsFromUrl(params));
      && (forall k :: k in r <==> IsFilterKey(k) && k in params && params[k] != "")
      && (forall k :: k in r ==> r[k] == params[k])
  {
  }

  /** The query of `fetchAds`. The numeric fields hold the text that
      `Number(...)` converts. */
  datatype Query = Query(
    title: Option<string>,
    location: Option<string>,
    minPrice: Option<string>,
    maxPrice: Option<string>,
    categoryId: Option<string>)

  /** `searchParams.get(key) || undefined`, and `get(key) ? Number(get(key)) :
      undefined` with the conversion left to the server call. */
  function Truthy(params: map<string, string>, k: string): (r: Option<string>)
    ensures r.None? <==> k !in params || params[k] == ""
    ensures r.Some? ==> r.value == params[k]
  {
    if k in params && params[k] != "" then Some(params[k]) else None
  }

  function FetchQuery(params: map<string, string>): Query {
    Query(Truthy(params, TitleKey), Truthy(params, LocationKey), Truthy(params, MinPriceKey),
          Truthy(params, MaxPriceKey), Truthy(params, CategoryIdKey))
  }

  /** The query sent after "apply" carries exactly the non-empty fields, and
      after "clear" it carries nothing. */
  lemma QueryAfterApply(f: Fields)
    ensures var q := FetchQuery(ParamsOf(f));
      && q.title == (if f.title == "" then None else Some(f.title))
      && q.location == (if f.location == "" then None else Some(f.location))
      && q.minPrice == (if f.minPrice == "" then None else Some(f.minPrice))
      && q.maxPrice == (if f.maxPrice == "" then None else Some(f.maxPrice))
      && q.categoryId == (if f.categoryId == "" then None else Some(f.categoryId))
    ensures FetchQuery(ParamsOf(Cleared)) == Query(None, None, None, None, None)
  {
    assert FieldAt(f, TitleKey) == f.title && FieldAt(f, LocationKey) == f.location;
    assert FieldAt(f, MinPriceKey) == f.minPrice && FieldAt(f, MaxPriceKey) == f.maxPrice;
    assert FieldAt(f, CategoryIdKey) == f.categoryId;
    ApplyAfterClearIsEmpty();
  }

  /** The "clear" button of the side panel. */
  predicate ShowClear(f: Fields) {
    f.minPrice != "" || f.maxPrice != "" || f.categoryId != ""
  }

  /** The button shows exactly when a side-panel filter is set: the title and
      location of the top bar do not count, and after "clear" it is gone. */
  lemma ShowClearCases(f: Fields, title: string, location: string)
    ensures ShowClear(f) <==> ShowClear(f.(title := title, location := location))
    ensures !ShowClear(f.(title := title, location := location)) <==> f.minPrice == f.maxPrice == f.categoryId == ""
    ensures !ShowClear(Cleared)
  {
  }

  /** The page's state. */
  class Page {
    var searchParams: map<string, string>
    var ads: seq<Advertisement>
    var isLoading: bool
    var title: string
    var location: string
    var minPrice: string
    var maxPrice: string
    var categoryId: string

    function FieldValues(): Fields
      reads this
    {
      Fields(title, location, minPrice, maxPrice, categoryId)
    }

    /** Mounting on a URL: the fields take their values from it. */
    constructor (url: map<string, string>)
      ensures searchParams == url && FieldValues() == FieldsFromUrl(url)
      ensures ads == [] && isLoading
    {
      searchParams := url;
      ads := [];
      isLoading := true;
      title := GetOrEmpty(url, TitleKey);
      location := GetOrEmpty(url, LocationKey);
      minPrice := GetOrEmpty(url, MinPriceKey);
      maxPrice := GetOrEmpty(url, MaxPriceKey);
      categoryId := GetOrEmpty(url, CategoryIdKey);
    }

    /** `fetchAds` for the current URL, with `getAllAds`'s result: returns
        the query sent; the list is replaced only on success, and loading is
        over on both paths. */
    method FetchAds(reply: Option<seq<Advertisement>>) returns (sent: Query)
      modifies this
      ensures sent == FetchQuery(searchParams)
      ensures ads == (if reply.Some? then reply.value else old(ads))
      ensures !isLoading
      ensures searchParams == old(searchParams) && FieldValues() == old(FieldValues())
    {
      isLoading := true;
      sent := FetchQuery(searchParams);
      match reply {
        case Some(data) =>
          ads := data;
        case None =>
      }
      isLoading := false;
    }

    /** `handleApplyFilters`: each non-empty field is copied into a fresh
        record, which becomes the URL's query string. */
    method HandleApplyFilters()
      modifies this
      ensures searchParams == ParamsOf(FieldValues())
      ensures FieldValues() == old(FieldValues()) && ads == old(ads) && isLoading == old(isLoading)
    {
      var params: map<string, string> := map[];
      if title != "" {
        params := params[TitleKey := title];
      }
      if location != "" {
        params := params[LocationKey := location];
      }
      if minPrice != "" {
        params := params[MinPriceKey := minPrice];
      }
      if maxPrice != "" {
        params := params[MaxPriceKey := maxPrice];
      }
      if categoryId != "" {
        params := params[CategoryIdKey := categoryId];
      }
      searchParams := params;
    }

    /** `clearFilters`. */
    method ClearFilters()
      modifies this
      ensures FieldValues() == Cleared && searchParams == map[]
      ensures ads == old(ads) && isLoading == old(isLoading)
    {
      title := "";
      location := "";
      minPrice := "";
      maxPrice := "";
      categoryId := "";
      searchParams := map[];
    }

    /** `onKeyDown` of the title and location inputs: Enter applies. */
    method KeyDown(key: string)
      modifies this
      ensures key == "Enter" ==> searchParams == ParamsOf(FieldValues())
      ensures key != "Enter" ==> searchParams == old(searchParams)
      ensures FieldValues() == old(FieldValues()) && ads == old(ads) && isLoading == old(isLoading)
    {
      if key == "Enter" {
        HandleApplyFilters();
      }
    }
  }
}
