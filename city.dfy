/**
 * The `City` value of the map feature: built from the service's DTO with its
 * name lower-cased, or member by member as given; identified by `id` alone
 * for equality and hashing; shown as "Name, CC".
 */
module Cities {
  import opened Text

  /**
   * The latitude and longitude of a city.  They are Swift `Double`s that the
   * core only copies, so they are an uninterpreted payload here.
   */
  datatype Coord = Coord(lat: real, lon: real)

  /** A city record as the city service decodes it (`CityDTO`, field `_id`). */
  datatype CityDTO = CityDTO(id: int, name: string, country: string, coord: Coord)

  datatype City = City(id: int, name: string, country: string, coord: Coord)

  /** `init(dto:)`: the id, country and coordinates copied, the name lower-cased. */
  function FromDTO(dto: CityDTO): (c: City)
    ensures c.id == dto.id && c.country == dto.country && c.coord == dto.coord
    ensures c.name == Lower(dto.name) && IsLowerCase(c.name)
    ensures |c.name| == |dto.name|
  {
    City(dto.id, Lower(dto.name), dto.country, dto.coord)
  }

  /** `init(_:name:country:coord:)`: every field stored as given, nothing normalised. */
  function Make(id: int, name: string, country: string, coord: Coord): (c: City)
    ensures c.id == id && c.name == name && c.country == country && c.coord == coord
  {
    City(id, name, country, coord)
  }

  /** Building from a DTO is the memberwise initialiser applied to the lower-cased name. */
  lemma FromDTOIsMakeOfLowerName(dto: CityDTO)
    ensures FromDTO(dto) == Make(dto.id, Lower(dto.name), dto.country, dto.coord)
    ensures Lower(FromDTO(dto).name) == FromDTO(dto).name
  {
    LowerIdempotent(dto.name);
  }

  /** `defaultCity`: built member by member, so its name keeps its capital letter. */
  function DefaultCity(): (c: City)
    ensures c.id == 0 && c.name == "Cupertino" && c.country == "US"
    ensures c.coord == Coord(37.322998, -122.032182)
  {
    Make(0, "Cupertino", "US", Coord(37.322998, -122.032182))
  }

  lemma DefaultCityIsNotLowerCased()
    ensures !IsLowerCase(DefaultCity().name)
    ensures Lower(DefaultCity().name) != DefaultCity().name
  {
    assert IsUpperLetter(DefaultCity().name[0]);
  }

  /** `==`: two cities are the same city exactly when their ids are equal. */
  predicate SameCity(a: City, b: City): (same: bool)
    ensures a == b ==> same
    ensures same <==> a.id == b.id
  {
    a.id == b.id
  }

  /** `==` is an equivalence relation that ignores name, country and coordinates. */
  lemma SameCityIsEquivalence(a: City, b: City, c: City)
    ensures SameCity(a, a)
    ensures SameCity(a, b) <==> SameCity(b, a)
    ensures SameCity(a, b) && SameCity(b, c) ==> SameCity(a, c)
    ensures SameCity(a, b) <==> a.id == b.id
  {
  }

  lemma SameCityIgnoresPayload(a: City, name: string, country: string, coord: Coord)
    ensures SameCity(a, Make(a.id, name, country, coord))
  {
  }

  /**
   * `hash(into:)`: only the id is fed to the hasher.  The hasher is a
   * parameter, the function from what was combined to the final hash value.
   */
  function Hash(c: City, hasher: int -> int): (h: int)
    ensures forall d: City :: d.id == c.id ==> hasher(d.id) == h
  {
    hasher(c.id)
  }

  /** Equal cities hash equally, whatever the hasher. */
  lemma SameCityHashesEqually(a: City, b: City, hasher: int -> int)
    requires SameCity(a, b)
    ensures Hash(a, hasher) == Hash(b, hasher)
  {
  }

  /** `displayTitle`: the capitalised name, ", ", and the upper-cased country. */
  function DisplayTitle(c: City): (t: string)
    ensures |t| == |c.name| + 2 + |c.country|
    ensures t[|c.name|] == ',' && t[|c.name| + 1] == ' '
  {
    Capitalized(c.name) + ", " + Upper(c.country)
  }

  /** The lower-casing at ingestion does not show in the title. */
  lemma {:induction false} DisplayTitleOfIngested(dto: CityDTO)
    ensures DisplayTitle(FromDTO(dto)) == Capitalized(dto.name) + ", " + Upper(dto.country)
  {
    CapitalizedIgnoresCase(dto.name, true);
  }

  lemma UpperOfUpperCase(s: string)
    requires forall i :: 0 <= i < |s| ==> !IsLowerLetter(s[i])
    ensures Upper(s) == s
  {
  }

  /** A one-word name written as a capital and lower-case letters, in an upper-case country, is shown as it is written. */
  lemma DisplayTitleOfCapitalWord(dto: CityDTO)
    requires dto.name != [] && !IsLowerLetter(dto.name[0]) && !IsWordSeparator(dto.name[0])
    requires IsWordTail(dto.name[1..])
    requires forall i :: 0 <= i < |dto.country| ==> !IsLowerLetter(dto.country[i])
    ensures DisplayTitle(FromDTO(dto)) == dto.name + ", " + dto.country
  {
    CapitalizedOfCapitalWord(dto.name);
    UpperOfUpperCase(dto.country);
    DisplayTitleOfIngested(dto);
  }

  /** Two such words joined by a space are likewise shown as written. */
  lemma DisplayTitleOfTwoWords(dto: CityDTO, first: string, second: string)
    requires dto.name == first + " " + second
    requires first != [] && !IsLowerLetter(first[0]) && !IsWordSeparator(first[0]) && IsWordTail(first[1..])
    requires second != [] && !IsLowerLetter(second[0]) && !IsWordSeparator(second[0]) && IsWordTail(second[1..])
    requires forall i :: 0 <= i < |dto.country| ==> !IsLowerLetter(dto.country[i])
    ensures DisplayTitle(FromDTO(dto)) == dto.name + ", " + dto.country
  {
    CapitalizedOfTwoWords(first, second);
    UpperOfUpperCase(dto.country);
    DisplayTitleOfIngested(dto);
  }

  /** The titles the map feature's tests expect, for any DTO with these name and country. */
  lemma DisplayTitleCityA(dto: CityDTO)
    requires dto.name == "City A" && dto.country == "CA"
    ensures DisplayTitle(FromDTO(dto)) == "City A, CA"
  {
    assert dto.name == "City" + " " + "A";
    DisplayTitleOfTwoWords(dto, "City", "A");
  }

  lemma DisplayTitleCityB(dto: CityDTO)
    requires dto.name == "City B" && dto.country == "CB"
    ensures DisplayTitle(FromDTO(dto)) == "City B, CB"
  {
    assert dto.name == "City" + " " + "B";
    DisplayTitleOfTwoWords(dto, "City", "B");
  }

  lemma DisplayTitleSydney(dto: CityDTO)
    requires dto.name == "Sydney" && dto.country == "AU"
    ensures DisplayTitle(FromDTO(dto)) == "Sydney, AU"
  {
    assert IsWordTail(dto.name[1..]);
    DisplayTitleOfCapitalWord(dto);
  }

  lemma DisplayTitleAlabama(dto: CityDTO)
    requires dto.name == "Alabama" && dto.country == "US"
    ensures DisplayTitle(FromDTO(dto)) == "Alabama, US"
  {
    assert IsWordTail(dto.name[1..]);
    DisplayTitleOfCapitalWord(dto);
  }

  lemma DisplayTitleAlbuquerque(dto: CityDTO)
    requires dto.name == "Albuquerque" && dto.country == "US"
    ensures DisplayTitle(FromDTO(dto)) == "Albuquerque, US"
  {
    assert IsWordTail(dto.name[1..]);
    DisplayTitleOfCapitalWord(dto);
  }

  lemma DisplayTitleNamed(c: City)
    requires c.name == "Cupertino" && c.country == "US"
    ensures DisplayTitle(c) == "Cupertino, US"
  {
    assert IsWordTail(c.name[1..]);
    CapitalizedOfCapitalWord(c.name);
    UpperOfUpperCase(c.country);
  }

  lemma DisplayTitleDefaultCity()
    ensures DisplayTitle(DefaultCity()) == "Cupertino, US"
  {
    DisplayTitleNamed(DefaultCity());
  }
}
