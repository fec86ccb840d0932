/** `CityAutocomplete`: a city input whose suggestions are the known cities
    starting with what has been typed, whatever the case. The component does
    not own the text: every change goes to the parent through `onChange`,
    recorded here in order. The list of Polish cities is a parameter. */
module CityAutocomplete {
  import opened Common
  import opened Strings

  /** `city.toLowerCase().startsWith(input.toLowerCase())`. */
  predicate Matches(city: string, input: string) {
    StartsWith(ToLower(city), ToLower(input))
  }

  /** The filter of `handleInputChange`. */
  function Suggestions(cities: seq<string>, input: string): seq<string> {
    Filter(cities, (city: string) => Matches(city, input))
  }

  /** A city is suggested exactly when it is known and starts with the input
      whatever the case; suggestions keep the order of the known cities. */
  lemma SuggestionsExactly(cities: seq<string>, input: string, city: string)
    ensures city in Suggestions(cities, input) <==> city in cities && Matches(city, input)
    ensures IsSubsequence(Suggestions(cities, input), cities)
  {
    FilterMembership(cities, (c: string) => Matches(c, input), city);
    FilterIsSubsequence(cities, (c: string) => Matches(c, input));
  }

  /** Typing more only narrows the suggestions: a city suggested for a longer
      input was suggested for its beginning. */
  lemma TypingNarrows(cities: seq<string>, input: string, more: string, city: string)
    requires city in Suggestions(cities, input + more)
    ensures city in Suggestions(cities, input)
  {
    SuggestionsExactly(cities, input + more, city);
    SuggestionsExactly(cities, input, city);
    var lc, lt := ToLower(city), ToLower(input + more);
    assert ToLower(input) == lt[..|input|];
    assert lc[..|input|] == lt[..|input|];
  }

  /** The state the component keeps. */
  datatype State = State(isOpen: bool, filteredCities: seq<string>)

  /** `handleInputChange` after `onChange`: a non-empty input lists its
      suggestions and opens the list; an empty one only closes it. */
  function AfterInput(s: State, cities: seq<string>, input: string): State {
    if |input| > 0 then State(true, Suggestions(cities, input)) else s.(isOpen := false)
  }

  /** `isOpen && filteredCities.length > 0`. */
  predicate Visible(s: State) {
    s.isOpen && |s.filteredCities| > 0
  }

  /** After typing, the list shows exactly when the input is non-empty and
      some known city starts with it; emptying the input hides it but keeps
      the old suggestions for the next focus. */
  lemma VisibleAfterInput(s: State, cities: seq<string>, input: string)
    ensures Visible(AfterInput(s, cities, input)) <==>
      input != "" && exists city :: city in cities && Matches(city, input)
    ensures input == "" ==> AfterInput(s, cities, input).filteredCities == s.filteredCities
  {
    if input != "" {
      var shown := Suggestions(cities, input);
      if |shown| > 0 {
        SuggestionsExactly(cities, input, shown[0]);
      } else {
        forall city | city in cities
          ensures !Matches(city, input)
        {
          SuggestionsExactly(cities, input, city);
        }
      }
    }
  }

  /** The component, and the `onChange` calls it has made. */
  class Box {
    const cities: seq<string>
    var isOpen: bool
    var filteredCities: seq<string>
    var changes: seq<string>

    constructor (cities: seq<string>)
      ensures this.cities == cities && Snapshot() == State(false, []) && changes == []
    {
      this.cities := cities;
      isOpen := false;
      filteredCities := [];
      changes := [];
    }

    function Snapshot(): State
      reads this
    {
      State(isOpen, filteredCities)
    }

    /** `handleInputChange`: the raw input goes to the parent first. */
    method HandleInputChange(input: string)
      modifies this
      ensures changes == old(changes) + [input]
      ensures Snapshot() == AfterInput(old(Snapshot()), cities, input)
    {
      changes := changes + [input];
      if |input| > 0 {
        filteredCities := Suggestions(cities, input);
        isOpen := true;
      } else {
        isOpen := false;
      }
    }

    /** `handleSelectCity`: the chosen city goes to the parent and the list
        closes. */
    method HandleSelectCity(city: string)
      modifies this
      ensures changes == old(changes) + [city]
      ensures !isOpen && filteredCities == old(filteredCities)
    {
      changes := changes + [city];
      isOpen := false;
    }

    /** `onFocus`, with the parent's current value: reopens only for a
        non-empty value, with the suggestions left from before. */
    method Focus(value: string)
      modifies this
      ensures isOpen == (old(isOpen) || |value| > 0)
      ensures filteredCities == old(filteredCities) && changes == old(changes)
    {
      if |value| > 0 {
        isOpen := true;
      }
    }

    /** A mouse press outside the component closes the list. */
    method ClickOutside()
      modifies this
      ensures !isOpen
      ensures filteredCities == old(filteredCities) && changes == old(changes)
    {
      isOpen := false;
    }
  }
}
