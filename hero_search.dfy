/** `HeroSearch`: the title box and city box of the home page, whose search
    navigates to the search page with the non-empty ones as query
    parameters. A navigation is recorded as its path and its parameters in
    order; their percent-encoding by `createSearchParams` is not modelled. */
module HeroSearch {
  import SearchPage

  const SearchPath: string := "/search"

  datatype Navigation = Navigation(pathname: string, params: seq<(string, string)>)

  /** `{...(title && { title }), ...(location && { location })}`. */
  function SearchParams(title: string, location: string): seq<(string, string)> {
    (if title != "" then [(SearchPage.TitleKey, title)] else [])
    + (if location != "" then [(SearchPage.LocationKey, location)] else [])
  }

  /** The query string as the search page reads it. */
  function ParamsMap(params: seq<(string, string)>): map<string, string>
    decreases |params|
  {
    if params == [] then map[]
    else ParamsMap(params[1..])[params[0].0 := params[0].1]
  }

  /** The `title` key is present exactly when the title is non-empty, and the
      `location` key exactly when the city is; each carries its text as
      typed, the title first, and no other key is ever sent. */
  lemma SearchParamsCases(title: string, location: string)
    ensures var p := SearchParams(title, location);
      && ((SearchPage.TitleKey, title) in p <==> title != "")
      && ((SearchPage.LocationKey, location) in p <==> location != "")
      && (forall i :: 0 <= i < |p| ==> p[i] == (SearchPage.TitleKey, title) || p[i] == (SearchPage.LocationKey, location))
      && (title != "" ==> p[0] == (SearchPage.TitleKey, title))
      && |p| <= 2
  {
  }

  /** The search page opened by a search starts with the same title and city
      in its fields and every other filter empty. */
  lemma SearchPageShowsTheSearch(title: string, location: string)
    ensures SearchPage.FieldsFromUrl(ParamsMap(SearchParams(title, location)))
      == SearchPage.Fields(title, location, "", "", "")
  {
    var p := SearchParams(title, location);
    var m := ParamsMap(p);
    assert SearchPage.TitleKey != SearchPage.LocationKey;
    if title != "" && location != "" {
      assert p[1..] == [(SearchPage.LocationKey, location)];
      assert ParamsMap(p[1..]) == map[SearchPage.LocationKey := location];
      assert m == map[SearchPage.LocationKey := location, SearchPage.TitleKey := title];
    } else if title != "" {
      assert p == [(SearchPage.TitleKey, title)] && p[1..] == [];
      assert ParamsMap(p[1..]) == map[];
      assert m == map[SearchPage.TitleKey := title];
    } else if location != "" {
      assert p == [(SearchPage.LocationKey, location)] && p[1..] == [];
      assert ParamsMap(p[1..]) == map[];
      assert m == map[SearchPage.LocationKey := location];
    } else {
      assert m == map[];
    }
  }

  /** The component's state and the navigations it has made. */
  class Hero {
    var title: string
    var location: string
    var navigations: seq<Navigation>

    constructor ()
      ensures title == "" && location == "" && navigations == []
    {
      title := "";
      location := "";
      navigations := [];
    }

    /** `handleSearch`: always to "/search". */
    method HandleSearch()
      modifies this
      ensures navigations == old(navigations) + [Navigation(SearchPath, SearchParams(title, location))]
      ensures title == old(title) && location == old(location)
    {
      var params: seq<(string, string)> := [];
      if title != "" {
        params := params + [(SearchPage.TitleKey, title)];
      }
      if location != "" {
        params := params + [(SearchPage.LocationKey, location)];
      }
      assert params == SearchParams(title, location);
      navigations := navigations + [Navigation(SearchPath, params)];
    }

    /** `handleKeyDown` of both boxes: Enter searches, any other key does
        nothing. */
    method HandleKeyDown(key: string)
      modifies this
      ensures key == "Enter" ==> navigations == old(navigations) + [Navigation(SearchPath, SearchParams(title, location))]
      ensures key != "Enter" ==> navigations == old(navigations)
      ensures title == old(title) && location == old(location)
    {
      if key == "Enter" {
        HandleSearch();
      }
    }
  }
}
