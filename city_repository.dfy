/**
 * `CityRepository`: holds the loaded cities and the published
 * `searchResults`.  The city service is asked for the list only while no
 * city is loaded; what it would answer is a parameter of `LoadInitialData`,
 * and `fetchCount` counts how often it is asked.
 */
module CityRepositories {
  import opened Results
  import opened Text
  import opened Cities
  import opened CitySearch

  /** `.map { City(dto: $0) }`: one city per record, in order, each name lower-cased. */
  function Ingest(dtos: seq<CityDTO>): (cities: seq<City>)
    ensures |cities| == |dtos|
    ensures forall i :: 0 <= i < |dtos| ==> cities[i] == FromDTO(dtos[i])
    ensures forall c :: c in cities ==> IsLowerCase(c.name)
  {
    seq(|dtos|, i requires 0 <= i < |dtos| => FromDTO(dtos[i]))
  }

  /** Every loaded city's name is already lower case. */
  predicate AllNamesLowerCase(cities: seq<City>)
  {
    forall c :: c in cities ==> IsLowerCase(c.name)
  }

  class CityRepository<E> {
    var searchResults: seq<City>
    var cities: seq<City>
    const maxResults: nat
    /** How many times the city service has been asked for the list. */
    var fetchCount: nat

    /**
     * The published list is sorted, within the cap and drawn from the loaded
     * cities; the loaded cities all came through `init(dto:)`.
     */
    ghost predicate Valid()
      reads this
    {
      && |searchResults| <= maxResults
      && Sorted(searchResults)
      && multiset(searchResults) <= multiset(cities)
      && AllNamesLowerCase(cities)
    }

    constructor (maxResults: nat := 50)
      ensures Valid()
      ensures this.maxResults == maxResults
      ensures searchResults == [] && cities == [] && fetchCount == 0
    {
      this.maxResults := maxResults;
      searchResults := [];
      cities := [];
      fetchCount := 0;
    }

    /**
     * `loadInitialData()`: while no city is loaded, ask the service; on
     * success load its cities and publish them sorted and capped; on failure
     * rethrow the same error and change nothing.  Once cities are loaded it
     * returns at once.
     */
    method LoadInitialData(response: Result<seq<CityDTO>, E>) returns (outcome: Outcome<E>)
      requires Valid()
      modifies this
      ensures Valid()
      ensures old(cities) != [] ==>
                outcome == Pass && fetchCount == old(fetchCount)
                && cities == old(cities) && searchResults == old(searchResults)
      ensures old(cities) == [] ==> fetchCount == old(fetchCount) + 1
      ensures old(cities) == [] && response.Success? ==>
                outcome == Pass
                && cities == Ingest(response.value)
                && searchResults == SortAndLimit(cities, maxResults)
      ensures old(cities) == [] && response.Failure? ==>
                outcome == Fail(response.error)
                && cities == old(cities) && searchResults == old(searchResults)
    {
      if cities != [] {
        return Pass;
      }
      fetchCount := fetchCount + 1;
      match response
      case Failure(error) =>
        outcome := Fail(error);
      case Success(dtos) =>
        cities := Ingest(dtos);
        searchResults := SortAndLimit(cities, maxResults);
        outcome := Pass;
    }

    /**
     * `searchCities(with:)`: publish the cities matching `term` (all of them
     * for the empty term), sorted and capped; the loaded cities stay as they are.
     */
    method SearchCities(term: string)
      requires Valid()
      modifies this`searchResults
      ensures Valid()
      ensures searchResults == SearchResults(cities, term, maxResults)
    {
      if term == [] {
        searchResults := SortAndLimit(cities, maxResults);
        return;
      }
      var prefix := Lower(term);
      var filtered := Filter(cities, prefix);
      searchResults := SortAndLimit(filtered, maxResults);
      assert searchResults == SearchResults(cities, term, maxResults);
    }
  }

  /**
   * Loaded names are already lower case, so the second `lowercased()` of the
   * search filter changes nothing: a loaded city matches exactly when its
   * stored name starts with the prefix.
   */
  lemma SearchLowerCasingIsNoOp(dtos: seq<CityDTO>, prefix: string)
    ensures forall c :: c in Ingest(dtos) ==> Lower(c.name) == c.name && (Matches(c, prefix) <==> prefix <= c.name)
  {
  }

  /** After a successful load, as many cities are published as were fetched, up to the cap. */
  lemma LoadedCount(dtos: seq<CityDTO>, maxResults: nat)
    ensures |SortAndLimit(Ingest(dtos), maxResults)| == Min(|dtos|, maxResults)
    ensures |dtos| <= maxResults ==> multiset(SortAndLimit(Ingest(dtos), maxResults)) == multiset(Ingest(dtos))
  {
  }

  /**
   * A load publishes every fetched city within the cap, in (name, country)
   * order with their display titles; a second load does not ask the service.
   */
  method LoadTwiceScenario(twoCities: seq<CityDTO>, failure: string)
    requires |twoCities| == 2
    requires twoCities[0].name == "City A" && twoCities[0].country == "CA"
    requires twoCities[1].name == "City B" && twoCities[1].country == "CB"
  {
    var repository := new CityRepository<string>();
    var outcome := repository.LoadInitialData(Success(twoCities));
    assert outcome == Pass && |repository.searchResults| == 2;
    TwoCityOrder(twoCities);
    DisplayTitleCityA(twoCities[0]);
    DisplayTitleCityB(twoCities[1]);
    assert DisplayTitle(repository.searchResults[0]) == "City A, CA";
    assert DisplayTitle(repository.searchResults[1]) == "City B, CB";
    outcome := repository.LoadInitialData(Failure(failure));
    assert outcome == Pass && repository.fetchCount == 1 && |repository.searchResults| == 2;
  }

  /** The cap limits what is published. */
  method CapScenario(twoCities: seq<CityDTO>)
    requires |twoCities| == 2
  {
    var capped := new CityRepository<string>(1);
    var outcome := capped.LoadInitialData(Success(twoCities));
    assert |capped.searchResults| == 1;
  }

  /**
   * A failed load rethrows the service's error and leaves the list empty, and
   * so does an empty answer; each time the next call asks the service again.
   */
  method RetryScenario(twoCities: seq<CityDTO>, failure: string)
    requires |twoCities| == 2
  {
    var repository := new CityRepository<string>();
    var outcome := repository.LoadInitialData(Failure(failure));
    assert outcome == Fail(failure) && repository.cities == [] && repository.searchResults == [];
    outcome := repository.LoadInitialData(Success([]));
    assert repository.fetchCount == 2 && repository.cities == [];
    outcome := repository.LoadInitialData(Success(twoCities));
    assert repository.fetchCount == 3 && |repository.searchResults| == 2;
  }

  /** The five cities of the prefix test, as the service returns them. */
  predicate PrefixTestCities(dtos: seq<CityDTO>)
  {
    && |dtos| == 5
    && dtos[0].name == "Alabama" && dtos[1].name == "Albuquerque" && dtos[2].name == "Anaheim"
    && dtos[3].name == "Arizona" && dtos[4].name == "Sydney"
    && dtos[0].country == "US" && dtos[1].country == "US" && dtos[2].country == "US"
    && dtos[3].country == "US" && dtos[4].country == "AU"
  }

  /** A city from `dto` matches `prefix` when the DTO's name, letter by letter lower-cased, starts with it. */
  lemma IngestedMatches(dto: CityDTO, prefix: string)
    requires |prefix| <= |dto.name|
    requires forall i :: 0 <= i < |prefix| ==> LowerChar(dto.name[i]) == prefix[i]
    ensures Matches(FromDTO(dto), prefix)
  {
    LowerIdempotent(dto.name);
  }

  /** A city from `dto` does not match `prefix` when they differ at position `k`. */
  lemma IngestedMismatch(dto: CityDTO, prefix: string, k: nat)
    requires k < |prefix| && k < |dto.name| && LowerChar(dto.name[k]) != prefix[k]
    ensures !Matches(FromDTO(dto), prefix)
  {
    LowerIdempotent(dto.name);
  }

  function Ones(b: bool): nat
  {
    if b then 1 else 0
  }

  lemma FilterLengthCons(s: seq<City>, prefix: string)
    requires s != []
    ensures |Filter(s, prefix)| == Ones(Matches(s[0], prefix)) + |Filter(s[1..], prefix)|
  {
  }

  lemma FilterLengthOfFive(cities: seq<City>, prefix: string)
    requires |cities| == 5
    ensures |Filter(cities, prefix)|
            == Ones(Matches(cities[0], prefix)) + Ones(Matches(cities[1], prefix)) + Ones(Matches(cities[2], prefix))
               + Ones(Matches(cities[3], prefix)) + Ones(Matches(cities[4], prefix))
  {
    FilterLengthCons(cities, prefix);
    FilterLengthCons(cities[1..], prefix);
    FilterLengthCons(cities[2..], prefix);
    FilterLengthCons(cities[3..], prefix);
    FilterLengthCons(cities[4..], prefix);
    assert cities[1..][1..] == cities[2..] && cities[2..][1..] == cities[3..];
    assert cities[3..][1..] == cities[4..] && cities[4..][1..] == [];
  }

  lemma FilterLengthOfThree(cities: seq<City>, prefix: string)
    requires |cities| == 3
    ensures |Filter(cities, prefix)|
            == Ones(Matches(cities[0], prefix)) + Ones(Matches(cities[1], prefix)) + Ones(Matches(cities[2], prefix))
  {
    FilterLengthCons(cities, prefix);
    FilterLengthCons(cities[1..], prefix);
    FilterLengthCons(cities[2..], prefix);
    assert cities[1..][1..] == cities[2..] && cities[2..][1..] == [];
  }

  /** A search of five cities finds as many as match, within the cap. */
  lemma SearchCountOfFive(cities: seq<City>, term: string)
    requires |cities| == 5
    ensures var prefix := Lower(term);
      |SearchResults(cities, term, 50)|
      == Min(Ones(Matches(cities[0], prefix)) + Ones(Matches(cities[1], prefix)) + Ones(Matches(cities[2], prefix))
             + Ones(Matches(cities[3], prefix)) + Ones(Matches(cities[4], prefix)), 50)
  {
    FilterLengthOfFive(cities, Lower(term));
  }

  lemma MatchesOfA(dtos: seq<CityDTO>)
    requires PrefixTestCities(dtos)
    ensures var c := Ingest(dtos);
      Matches(c[0], "a") && Matches(c[1], "a") && Matches(c[2], "a") && Matches(c[3], "a") && !Matches(c[4], "a")
  {
    IngestedMatches(dtos[0], "a");
    IngestedMatches(dtos[1], "a");
    IngestedMatches(dtos[2], "a");
    IngestedMatches(dtos[3], "a");
    IngestedMismatch(dtos[4], "a", 0);
  }

  lemma MatchesOfS(dtos: seq<CityDTO>)
    requires PrefixTestCities(dtos)
    ensures var c := Ingest(dtos);
      !Matches(c[0], "s") && !Matches(c[1], "s") && !Matches(c[2], "s") && !Matches(c[3], "s") && Matches(c[4], "s")
  {
    IngestedMismatch(dtos[0], "s", 0);
    IngestedMismatch(dtos[1], "s", 0);
    IngestedMismatch(dtos[2], "s", 0);
    IngestedMismatch(dtos[3], "s", 0);
    IngestedMatches(dtos[4], "s");
  }

  lemma MatchesOfAl(dtos: seq<CityDTO>)
    requires PrefixTestCities(dtos)
    ensures var c := Ingest(dtos);
      Matches(c[0], "al") && Matches(c[1], "al") && !Matches(c[2], "al") && !Matches(c[3], "al") && !Matches(c[4], "al")
  {
    IngestedMatches(dtos[0], "al");
    IngestedMatches(dtos[1], "al");
    IngestedMismatch(dtos[2], "al", 1);
    IngestedMismatch(dtos[3], "al", 1);
    IngestedMismatch(dtos[4], "al", 0);
  }

  lemma MatchesOfAlb(dtos: seq<CityDTO>)
    requires PrefixTestCities(dtos)
    ensures var c := Ingest(dtos);
      !Matches(c[0], "alb") && Matches(c[1], "alb") && !Matches(c[2], "alb") && !Matches(c[3], "alb") && !Matches(c[4], "alb")
  {
    IngestedMismatch(dtos[0], "alb", 2);
    IngestedMatches(dtos[1], "alb");
    IngestedMismatch(dtos[2], "alb", 1);
    IngestedMismatch(dtos[3], "alb", 1);
    IngestedMismatch(dtos[4], "alb", 0);
  }

  /** "A" finds the four cities whose names start with an A, whatever their case. */
  lemma PrefixSearchA(dtos: seq<CityDTO>)
    requires PrefixTestCities(dtos)
    ensures |SearchResults(Ingest(dtos), "A", 50)| == 4
  {
    assert Lower("A") == "a";
    MatchesOfA(dtos);
    SearchCountOfFive(Ingest(dtos), "A");
  }

  /** "s" finds Sydney alone. */
  lemma PrefixSearchS(dtos: seq<CityDTO>)
    requires PrefixTestCities(dtos)
    ensures SearchResults(Ingest(dtos), "s", 50) == [FromDTO(dtos[4])]
  {
    var cities := Ingest(dtos);
    assert Lower("s") == "s";
    MatchesOfS(dtos);
    SearchCountOfFive(cities, "s");
    SearchFindsOnly(cities, "s", 50, cities[4]);
  }

  /** "Al" finds Alabama and Albuquerque. */
  lemma PrefixSearchAl(dtos: seq<CityDTO>)
    requires PrefixTestCities(dtos)
    ensures var r := SearchResults(Ingest(dtos), "Al", 50);
      |r| == 2 && FromDTO(dtos[0]) in r && FromDTO(dtos[1]) in r
  {
    var cities := Ingest(dtos);
    assert Lower("Al") == "al";
    MatchesOfAl(dtos);
    SearchCountOfFive(cities, "Al");
    SearchFinds(cities, "Al", 50, cities[0]);
    SearchFinds(cities, "Al", 50, cities[1]);
  }

  /** "Alb" finds Albuquerque alone. */
  lemma PrefixSearchAlb(dtos: seq<CityDTO>)
    requires PrefixTestCities(dtos)
    ensures SearchResults(Ingest(dtos), "Alb", 50) == [FromDTO(dtos[1])]
  {
    var cities := Ingest(dtos);
    assert Lower("Alb") == "alb";
    MatchesOfAlb(dtos);
    SearchCountOfFive(cities, "Alb");
    SearchFindsOnly(cities, "Alb", 50, cities[1]);
  }

  /** The two cities of the first load test are published in (name, country) order. */
  lemma TwoCityOrder(dtos: seq<CityDTO>)
    requires |dtos| == 2 && dtos[0].name == "City A" && dtos[1].name == "City B"
    ensures SortAndLimit(Ingest(dtos), 50) == [FromDTO(dtos[0]), FromDTO(dtos[1])]
  {
    var cities := Ingest(dtos);
    assert cities[0].name == "city " + "a" && cities[1].name == "city " + "b";
    LexLessAfterCommonPrefix("city ", "a", "b");
    assert KeyLess(cities[0], cities[1]);
    assert cities == [cities[0], cities[1]];
    SortedPair(SortAndLimit(cities, 50), cities[0], cities[1]);
  }

  /** The three cities of the search tests, as the service returns them. */
  predicate FilterTestCities(dtos: seq<CityDTO>)
  {
    && |dtos| == 3
    && dtos[0].name == "New York" && dtos[1].name == "Newark" && dtos[2].name == "Boston"
  }

  /** "new" finds New York and Newark, and every result starts with "new". */
  lemma SearchNew(dtos: seq<CityDTO>)
    requires FilterTestCities(dtos)
    ensures var r := SearchResults(Ingest(dtos), "new", 50);
      |r| == 2 && forall c :: c in r ==> "new" <= Lower(c.name)
  {
    var cities := Ingest(dtos);
    assert Lower("new") == "new";
    IngestedMatches(dtos[0], "new");
    IngestedMatches(dtos[1], "new");
    IngestedMismatch(dtos[2], "new", 0);
    FilterLengthOfThree(cities, "new");
  }

  lemma MatchesOfDigits(dtos: seq<CityDTO>)
    requires FilterTestCities(dtos)
    ensures var c := Ingest(dtos);
      !Matches(c[0], "888494") && !Matches(c[1], "888494") && !Matches(c[2], "888494")
  {
    IngestedMismatch(dtos[0], "888494", 0);
    IngestedMismatch(dtos[1], "888494", 0);
    IngestedMismatch(dtos[2], "888494", 0);
  }

  /** A term no name starts with finds nothing. */
  lemma SearchDigits(dtos: seq<CityDTO>)
    requires FilterTestCities(dtos)
    ensures SearchResults(Ingest(dtos), "888494", 50) == []
  {
    var cities := Ingest(dtos);
    assert Lower("888494") == "888494";
    MatchesOfDigits(dtos);
    FilterLengthOfThree(cities, "888494");
  }

  /** Titles of a result list, in order. */
  function Titles(r: seq<City>): (titles: seq<string>)
    ensures |titles| == |r| && forall i :: 0 <= i < |r| ==> titles[i] == DisplayTitle(r[i])
  {
    seq(|r|, i requires 0 <= i < |r| => DisplayTitle(r[i]))
  }

  /** "new" finds the two cities starting with it, and a term no name starts with finds none. */
  method FilterSearchScenario(dtos: seq<CityDTO>)
    requires FilterTestCities(dtos)
  {
    var repository := new CityRepository<string>();
    var outcome := repository.LoadInitialData(Success(dtos));
    repository.SearchCities("new");
    SearchNew(dtos);
    assert |repository.searchResults| == 2;
    assert forall c :: c in repository.searchResults ==> "new" <= Lower(c.name);
    repository.SearchCities("888494");
    SearchDigits(dtos);
    assert |repository.searchResults| == 0;
  }

  /** The prefix test: "A", "s", "Al" and "Alb" find four, one, two and one of the five cities. */
  method PrefixSearchScenario(dtos: seq<CityDTO>)
    requires PrefixTestCities(dtos)
  {
    var repository := new CityRepository<string>();
    var outcome := repository.LoadInitialData(Success(dtos));
    ghost var cities := repository.cities;
    assert cities == Ingest(dtos);

    repository.SearchCities("A");
    assert |repository.searchResults| == 4 by {
      PrefixSearchA(dtos);
    }

    repository.SearchCities("s");
    assert repository.searchResults == [FromDTO(dtos[4])] by {
      PrefixSearchS(dtos);
    }
    assert DisplayTitle(repository.searchResults[0]) == "Sydney, AU" by {
      DisplayTitleSydney(dtos[4]);
    }

    repository.SearchCities("Al");
    assert |repository.searchResults| == 2 && FromDTO(dtos[0]) in repository.searchResults
           && FromDTO(dtos[1]) in repository.searchResults by {
      PrefixSearchAl(dtos);
    }
    var titles := Titles(repository.searchResults);
    assert "Alabama, US" in titles by {
      DisplayTitleAlabama(dtos[0]);
    }
    assert "Albuquerque, US" in titles by {
      DisplayTitleAlbuquerque(dtos[1]);
    }

    repository.SearchCities("Alb");
    assert repository.searchResults == [FromDTO(dtos[1])] by {
      PrefixSearchAlb(dtos);
    }
    assert DisplayTitle(repository.searchResults[0]) == "Albuquerque, US" by {
      DisplayTitleAlbuquerque(dtos[1]);
    }
  }
}
