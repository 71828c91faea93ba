# SanzoMap core, modelled in Dafny

SanzoMap is an iOS app that loads a list of cities from a JSON endpoint, lets
the user search it by name prefix and shows the chosen city on a map. Most of
it is SwiftUI views and networking glue. This project models the parts with
behaviour that can be stated, and proves properties about them:

- **`CityRepository`** (module `CityRepositories`, class `CityRepository`):
  - the in-memory list of loaded `cities` and the published `searchResults`;
  - `loadInitialData`, which asks the city service only while no city is
    loaded;
  - `searchCities`, a case-insensitive prefix search on the city name.
- **The pure part of the repository** (module `CitySearch`):
  - the prefix filter;
  - `sortAndLimit`, which sorts by the pair (name, country) and keeps the
    first `maxResults` cities.
- **`City`** (module `Cities`):
  - the two initialisers (`init(dto:)` lower-cases the name);
  - equality and hashing by `id` alone;
  - the derived `displayTitle`.
- **The `NavigationRouter` protocol extension** (module `Navigation`, class
  `Router`):
  - a navigation stack with push, pop and pop-to-root;
  - a slot for a presented screen;
  - an optional will-change callback that fires before every effective change.
- **`DataState`** (module `DataStates`):
  - the three cases loading, loaded and error;
  - the `data` and `isLoading` accessors and the custom `==`.

Module `Text` models the Foundation string operations the city code uses:
`lowercased()`, `uppercased()`, `capitalized` and the `<` order on strings.
`hasPrefix` is Dafny's prefix order `<=` on character sequences, used in
`CitySearch.Matches`. Module `Results` holds the optional, result and outcome
types.

What is proved, in short:
- `sortAndLimit` returns a sorted permutation-prefix of its input: sorted by
  (name, country), at most `maxResults` long, a sub-multiset of the input, and
  made of the smallest cities of the input.
- A search returns only cities that match. It returns every matching city
  unless the cap is reached, and nothing when no city matches.
- The search ignores the case of the term: an upper-cased or lower-cased term
  finds the same cities.
- The published list is always drawn from the loaded cities.
- Once cities are loaded, a second load does not ask the service again.
- A failed load rethrows the same error and changes nothing.
- City equality is an equivalence that looks only at `id`, and equal cities
  hash equally.
- Capitalising a name ignores the lower-casing done at ingestion.
- Each router operation fires the callback exactly as often as the router
  tests expect, and the callback sees the state from before the change.
- `DataState`'s `==` is an equivalence whenever the payload's equality is one.

## Model

| member | source | states |
|---|---|---|
| `Text.Lower` | Features/MapFeature/Sources/MapFeature/Internal/Models/City.swift:18 | `lowercased()` replaces each upper-case letter by its lower-case partner (32 code points up) and keeps every other character; so the result has no upper-case letter and a string without one is unchanged |
| `Text.LowerIdempotent` | Features/MapFeature/Sources/MapFeature/Internal/Models/City.swift:18 | lower-casing a lower-cased string again leaves it unchanged |
| `Text.LowerOfUpper` | Features/MapFeature/Sources/MapFeature/Internal/CityListView/CityRepository.swift:41-43 | lower-casing after upper-casing gives the plain lower-casing: the term's case is lost, its letters are not |
| `Text.Upper` | Features/MapFeature/Sources/MapFeature/Internal/Models/City.swift:35 | `uppercased()` replaces each lower-case letter by its upper-case partner (32 code points down) and keeps every other character |
| `Text.CapitalizedFrom` | Features/MapFeature/Sources/MapFeature/Internal/Models/City.swift:35 | `capitalized`, from a given position on: a character that begins a word (the first one when `atWordStart`, or one right after a separator) is upper-cased, every other character is lower-cased |
| `Text.Capitalized` | Features/MapFeature/Sources/MapFeature/Internal/Models/City.swift:35 | `capitalized` upper-cases the first character and every character right after a separator, and lower-cases all the others |
| `Text.CapitalizedFromAppend` | Features/MapFeature/Sources/MapFeature/Internal/Models/City.swift:35 | `capitalized` of a concatenation is the two parts capitalised in turn, with the word boundary carried across |
| `Text.CapitalizedIgnoresCase` | Features/MapFeature/Sources/MapFeature/Internal/Models/City.swift:35 | `capitalized` gives the same string whether or not the input was lower-cased first |
| `Text.LexLess` | Features/MapFeature/Sources/MapFeature/Internal/CityListView/CityRepository.swift:52 | string `<`: never holds between equal strings, holds for a proper prefix, and holds when the first characters are in order |
| `Text.LexIrreflexive` | Features/MapFeature/Sources/MapFeature/Internal/CityListView/CityRepository.swift:52 | no string is less than itself under `<` |
| `Text.LexTransitive` | Features/MapFeature/Sources/MapFeature/Internal/CityListView/CityRepository.swift:52 | string `<` is transitive |
| `Text.LexTotal` | Features/MapFeature/Sources/MapFeature/Internal/CityListView/CityRepository.swift:52 | of two different strings, one is less than the other |
| `Text.LexAsymmetric` | Features/MapFeature/Sources/MapFeature/Internal/CityListView/CityRepository.swift:52 | string `<` never holds both ways |
| `Text.LexLessAfterCommonPrefix` | Features/MapFeature/Sources/MapFeature/Internal/CityListView/CityRepository.swift:52 | a common prefix does not decide the order of two strings: what follows it does |
| `Cities.FromDTO` | Features/MapFeature/Sources/MapFeature/Internal/Models/City.swift:16-21 | `init(dto:)` copies id, country and coordinates unchanged; the name is the lower-cased DTO name, has no upper-case letter and keeps its length |
| `Cities.Make` | Features/MapFeature/Sources/MapFeature/Internal/Models/City.swift:23-28 | `init(_:name:country:coord:)` stores all four fields verbatim |
| `Cities.DefaultCity` | Features/MapFeature/Sources/MapFeature/Internal/Models/City.swift:38-40 | `defaultCity` is Cupertino, US, with id 0 and the given coordinates |
| `Cities.FromDTOIsMakeOfLowerName` | Features/MapFeature/Sources/MapFeature/Internal/Models/City.swift:16-28 | `init(dto:)` is the memberwise initialiser applied to the lower-cased name; lower-casing that name again changes nothing |
| `Cities.DefaultCityIsNotLowerCased` | Features/MapFeature/Sources/MapFeature/Internal/Models/City.swift:38-40 | `defaultCity` is built member by member, so its name "Cupertino" keeps its capital and is not lower case |
| `Cities.SameCity` | Features/MapFeature/Sources/MapFeature/Internal/Models/City.swift:43-47 | `==` holds exactly when the ids are equal; structurally equal cities are always equal |
| `Cities.SameCityIsEquivalence` | Features/MapFeature/Sources/MapFeature/Internal/Models/City.swift:43-47 | `==` holds exactly when the ids are equal, and it is reflexive, symmetric and transitive |
| `Cities.SameCityIgnoresPayload` | Features/MapFeature/Sources/MapFeature/Internal/Models/City.swift:43-47 | a city equals any city with the same id, whatever its name, country or coordinates |
| `Cities.Hash` | Features/MapFeature/Sources/MapFeature/Internal/Models/City.swift:49-53 | only the id reaches the hasher: every city with the same id gets the same hash |
| `Cities.SameCityHashesEqually` | Features/MapFeature/Sources/MapFeature/Internal/Models/City.swift:49-53 | equal cities hash equally under any hasher, since only `id` is combined |
| `Cities.DisplayTitle` | Features/MapFeature/Sources/MapFeature/Internal/Models/City.swift:34-36 | `displayTitle` is as long as the name and the country plus two, with ", " right after the name |
| `Cities.DisplayTitleOfIngested` | Features/MapFeature/Sources/MapFeature/Internal/Models/City.swift:34-36 | for a city built from a DTO, the title is computed from the DTO's own name: the lower-casing at ingestion does not show |
| `Cities.DisplayTitleOfCapitalWord` | Features/MapFeature/Sources/MapFeature/Internal/Models/City.swift:34-36 | a one-word name written as a capital and lower-case letters, with an upper-case country, is shown exactly as written |
| `Cities.DisplayTitleOfTwoWords` | Features/MapFeature/Sources/MapFeature/Internal/Models/City.swift:34-36 | two such words joined by a space are likewise shown as written |
| `Cities.DisplayTitleCityA` | Features/MapFeature/Tests/MapFeatureTests/MapFeatureTests.swift:20 | any DTO named "City A" in country "CA" is shown as "City A, CA" |
| `Cities.DisplayTitleCityB` | Features/MapFeature/Tests/MapFeatureTests/MapFeatureTests.swift:21 | any DTO named "City B" in country "CB" is shown as "City B, CB" |
| `Cities.DisplayTitleSydney` | Features/MapFeature/Tests/MapFeatureTests/MapFeatureTests.swift:110 | any DTO named "Sydney" in country "AU" is shown as "Sydney, AU" |
| `Cities.DisplayTitleAlabama` | Features/MapFeature/Tests/MapFeatureTests/MapFeatureTests.swift:115 | any DTO named "Alabama" in country "US" is shown as "Alabama, US" |
| `Cities.DisplayTitleAlbuquerque` | Features/MapFeature/Tests/MapFeatureTests/MapFeatureTests.swift:116-120 | any DTO named "Albuquerque" in country "US" is shown as "Albuquerque, US" |
| `Cities.DisplayTitleDefaultCity` | Features/MapFeature/Sources/MapFeature/Internal/Models/City.swift:38-40 | `defaultCity` is shown as "Cupertino, US" |
| `CitySearch.KeyLess` | Features/MapFeature/Sources/MapFeature/Internal/CityListView/CityRepository.swift:52 | the tuple `<` on (name, country): the names decide when they differ, the countries break a tie, and cities with the same key are never ordered |
| `CitySearch.KeyLessIrreflexive` | Features/MapFeature/Sources/MapFeature/Internal/CityListView/CityRepository.swift:52 | the (name, country) tuple order is irreflexive |
| `CitySearch.KeyLessTransitive` | Features/MapFeature/Sources/MapFeature/Internal/CityListView/CityRepository.swift:52 | the (name, country) tuple order is transitive |
| `CitySearch.KeyLessTotal` | Features/MapFeature/Sources/MapFeature/Internal/CityListView/CityRepository.swift:52 | two cities with different (name, country) keys are ordered one way or the other |
| `CitySearch.NotAfterTransitive` | Features/MapFeature/Sources/MapFeature/Internal/CityListView/CityRepository.swift:52 | "not after" is transitive, so the order is a total preorder |
| `CitySearch.Insert` | Features/MapFeature/Sources/MapFeature/Internal/CityListView/CityRepository.swift:51-52 | inserting into a sorted list gives a sorted list holding one more copy of the city |
| `CitySearch.Sort` | Features/MapFeature/Sources/MapFeature/Internal/CityListView/CityRepository.swift:51-52 | `sorted` returns a permutation of its input that is non-decreasing in (name, country) |
| `CitySearch.SortedPair` | Features/MapFeature/Sources/MapFeature/Internal/CityListView/CityRepository.swift:51-52 | two cities in strict (name, country) order have only one sorted arrangement |
| `CitySearch.SortAndLimit` | Features/MapFeature/Sources/MapFeature/Internal/CityListView/CityRepository.swift:50-54 | the result is sorted, has exactly min(n, `maxResults`) elements, is a sub-multiset of the input, and is all of the input when n ≤ `maxResults` |
| `CitySearch.SortAndLimitKeepsFirst` | Features/MapFeature/Sources/MapFeature/Internal/CityListView/CityRepository.swift:50-53 | no city that `sortAndLimit` drops comes before a city it keeps |
| `CitySearch.Matches` | Features/MapFeature/Sources/MapFeature/Internal/CityListView/CityRepository.swift:43 | a city matches a prefix exactly when its lower-cased name is at least as long and agrees with the prefix at every position of the prefix |
| `CitySearch.Filter` | Features/MapFeature/Sources/MapFeature/Internal/CityListView/CityRepository.swift:42-44 | a city is in the filtered list exactly when it is in the input and its lower-cased name starts with the prefix; the list is no longer than the input |
| `CitySearch.FilterAppend` | Features/MapFeature/Sources/MapFeature/Internal/CityListView/CityRepository.swift:42-44 | filtering a concatenation filters each part and concatenates the results, so the filter keeps the input's order |
| `CitySearch.FilterCounts` | Features/MapFeature/Sources/MapFeature/Internal/CityListView/CityRepository.swift:42-44 | the filter keeps each matching city exactly as often as it occurs in the input, and no other city |
| `CitySearch.FilterEmptyPrefix` | Features/MapFeature/Sources/MapFeature/Internal/CityListView/CityRepository.swift:42-44 | filtering on the empty prefix keeps the whole list, in order |
| `CitySearch.SearchResults` | Features/MapFeature/Sources/MapFeature/Internal/CityListView/CityRepository.swift:36-46 | the search result is sorted, capped and drawn from the loaded cities, and every result matches the lower-cased term. It has min(#matches, `maxResults`) elements, holds every match unless the cap is reached, and is empty when nothing matches |
| `CitySearch.SearchFinds` | Features/MapFeature/Sources/MapFeature/Internal/CityListView/CityRepository.swift:41-45 | below the cap, every loaded city that matches the lower-cased term is published |
| `CitySearch.SearchFindsOnly` | Features/MapFeature/Sources/MapFeature/Internal/CityListView/CityRepository.swift:41-45 | below the cap, a search with a single result publishes exactly the one matching city |
| `CitySearch.SearchIgnoresTermCase` | Features/MapFeature/Sources/MapFeature/Internal/CityListView/CityRepository.swift:41-43 | the upper-cased and the lower-cased term give the same results as the term itself |
| `CitySearch.EmptyTermIsUnfiltered` | Features/MapFeature/Sources/MapFeature/Internal/CityListView/CityRepository.swift:37-45 | the empty-term shortcut publishes `sortAndLimit(cities)`, which is what the general prefix path would publish |
| `CitySearch.MatchesPrefixOfTerm` | Features/MapFeature/Sources/MapFeature/Internal/CityListView/CityRepository.swift:41-43 | a city matching a term also matches every prefix of that term |
| `CityRepositories.Ingest` | Features/MapFeature/Sources/MapFeature/Internal/CityListView/CityRepository.swift:29 | the fetched records become one city each, in order, each through `init(dto:)`, so every name is lower case |
| `CityRepositories.SearchLowerCasingIsNoOp` | Features/MapFeature/Sources/MapFeature/Internal/CityListView/CityRepository.swift:29 | every loaded name is already lower case, so the filter's second `lowercased()` changes nothing and a loaded city matches exactly when its stored name starts with the prefix |
| `CityRepositories.LoadedCount` | Features/MapFeature/Sources/MapFeature/Internal/CityListView/CityRepository.swift:29-30 | after a successful load, min(n, `maxResults`) cities are published, and all n of them when n ≤ `maxResults` |
| `CityRepositories.TwoCityOrder` | Features/MapFeature/Tests/MapFeatureTests/MapFeatureTests.swift:17-21 | the two cities "City A" and "City B" are published in that order |
| `CityRepositories.SearchNew` | Features/MapFeature/Tests/MapFeatureTests/MapFeatureTests.swift:65-71 | among New York, Newark and Boston, "new" finds two cities, each with a lower-cased name starting with "new" |
| `CityRepositories.SearchDigits` | Features/MapFeature/Tests/MapFeatureTests/MapFeatureTests.swift:86-88 | among the same cities, "888494" finds none |
| `CityRepositories.PrefixSearchA` | Features/MapFeature/Tests/MapFeatureTests/MapFeatureTests.swift:105-106 | among Alabama, Albuquerque, Anaheim, Arizona and Sydney, "A" finds four cities |
| `CityRepositories.PrefixSearchS` | Features/MapFeature/Tests/MapFeatureTests/MapFeatureTests.swift:108-110 | "s" finds exactly the city Sydney |
| `CityRepositories.PrefixSearchAl` | Features/MapFeature/Tests/MapFeatureTests/MapFeatureTests.swift:112-116 | "Al" finds two cities, Alabama and Albuquerque |
| `CityRepositories.PrefixSearchAlb` | Features/MapFeature/Tests/MapFeatureTests/MapFeatureTests.swift:118-120 | "Alb" finds exactly the city Albuquerque |
| `CityRepositories.CityRepository.constructor` | Features/MapFeature/Sources/MapFeature/Internal/CityListView/CityRepository.swift:18-24 | a new repository has no cities, publishes nothing, has not asked the service and keeps the given cap, 50 unless stated |
| `CityRepositories.CityRepository.LoadInitialData` | Features/MapFeature/Sources/MapFeature/Internal/CityListView/CityRepository.swift:26-34 | with cities loaded: returns without asking the service and changes nothing. Otherwise it asks the service once. On success the cities are the ingested records and the published list is `sortAndLimit` of them. On failure the same error is rethrown and nothing changes. The invariant (sorted, capped, drawn from the cities) is kept |
| `CityRepositories.CityRepository.SearchCities` | Features/MapFeature/Sources/MapFeature/Internal/CityListView/CityRepository.swift:36-46 | publishes `SearchResults(cities, term, maxResults)`, leaves the cities unchanged and keeps the invariant |
| `Navigation.Router.constructor` | Dependencies/Core/Tests/CoreTests/Architecture/Mocks/Mock+NavigationRouterImplementation.swift:10-15 | a router starts with an empty path, nothing presented and no callback |
| `Navigation.Router.Setup` | Dependencies/Core/Sources/Core/Architecture/Core+NavigationRouter.swift:35-37 | installs or removes the will-change callback and changes nothing else |
| `Navigation.Router.WillChange` | Dependencies/Core/Sources/Core/Architecture/Core+NavigationRouter.swift:46 | `callback?()` is one invocation when the callback is set and none when it is `nil`; the invocation observes the current state |
| `Navigation.Router.Push` | Dependencies/Core/Sources/Core/Architecture/Core+NavigationRouter.swift:45-48 | appends exactly the pushed value and fires the callback once, before appending; the presented slot is untouched |
| `Navigation.Router.PushScreen` | Dependencies/Core/Sources/Core/Architecture/Core+NavigationRouter.swift:41-43 | has the same effect as `push(_:)` on the destination |
| `Navigation.Router.Pop` | Dependencies/Core/Sources/Core/Architecture/Core+NavigationRouter.swift:50-55 | on a non-empty path removes exactly the last element and fires the callback once, before the removal; on an empty path changes nothing and fires nothing |
| `Navigation.Router.PopToRoot` | Dependencies/Core/Sources/Core/Architecture/Core+NavigationRouter.swift:57-60 | empties the path and fires the callback once, even when the path was already empty |
| `Navigation.Router.Present` | Dependencies/Core/Sources/Core/Architecture/Core+NavigationRouter.swift:64-68 | fires the callback once, then presents the destination with the flag set; the path is untouched and the flag agrees with the slot |
| `Navigation.Router.DismissPresentedScreen` | Dependencies/Core/Sources/Core/Architecture/Core+NavigationRouter.swift:70-74 | fires the callback once, then clears the slot and the flag; the path is untouched and the flag agrees with the slot |
| `DataStates.Data` | Dependencies/Core/Sources/Core/Foundation/Core+DataState.swift:16-21 | `data` holds a value exactly for `.loaded`, and it is the loaded value |
| `DataStates.IsLoading` | Dependencies/Core/Sources/Core/Foundation/Core+DataState.swift:23-28 | `isLoading` is true exactly for `.loading` |
| `DataStates.LoadingHasNoData` | Dependencies/Core/Sources/Core/Foundation/Core+DataState.swift:16-28 | a loading state has no data |
| `DataStates.Equal` | Dependencies/Core/Sources/Core/Foundation/Core+DataState.swift:33-45 | `.loading == .loading`; two loaded states are equal iff their values are; two errors are equal iff their descriptions are; states of different cases are never equal |
| `DataStates.EqualIsEquivalence` | Dependencies/Core/Sources/Core/Foundation/Core+DataState.swift:33-45 | `==` is reflexive, symmetric and transitive whenever the payload's equality is |
| `DataStates.ErrorsWithSameDescriptionAreEqual` | Dependencies/Core/Sources/Core/Foundation/Core+DataState.swift:39-41 | two different errors with the same description are equal states |

Scenario methods drive the classes through the source's unit tests,
asserting each expectation against the contracts above:
- `CityRepositories.LoadTwiceScenario`, `CapScenario` and `RetryScenario`
  follow the three load tests. They check the published counts and the titles
  "City A, CA" and "City B, CB", that a second load does not fetch, and that
  a failure or an empty fetch leads to a retry.
- `CityRepositories.FilterSearchScenario` and `PrefixSearchScenario` follow
  the three search tests (MapFeatureTests.swift:53-121), including the
  expected counts and titles.
- `Navigation.CallbackCountScenario` and `PopToRootScenario` follow the
  router's tests and check the exact callback counts.

## Left out

- Concurrency is not modelled: the `@MainActor` confinement of
  `CityRepository` and its `async` calls are gone. `loadInitialData` runs
  sequentially and receives the service's answer as a parameter.
- The networking stack is not modelled: URL requests, JSON decoding and the
  2xx status check. The view model's Combine and `DispatchQueue` forwarding,
  the logger, the key-path helper and all SwiftUI views are left out too.
  None of them is part of the core.
- Favourites, a persistent store and load-progress reporting are absent from
  `CityRepository.swift`, so they are absent from the model as well. They
  belong to other versions of the app.
- `Text.Lower`, `Text.Upper`, `Text.Capitalized`: these model Foundation's
  Unicode case mapping on the ASCII letters only. Other characters map to
  themselves, and only space, tab, line feed and carriage return separate
  words.
- `Text.LexLess`: Swift's `String` `<` compares under Unicode canonical
  equivalence. The model compares character codes lexicographically, and
  `hasPrefix` likewise is `<=` on character sequences.
- `CitySearch.Sort`: Swift's `sorted(by:)` does not promise stability. The
  model uses one particular (stable) insertion sort. Only sortedness and the
  permutation property are proved, and these hold for any correct sort. The
  order of cities with equal (name, country) may therefore differ from
  Swift's.
- `CityRepositories.CityRepository.constructor` takes `maxResults` as a `nat`,
  with the source's default of 50. A negative value would make Swift's
  `prefix` trap, so it is not modelled. The city service argument is absent,
  since its answer is a parameter of `LoadInitialData`.
- The `Double` coordinates are modelled as `real`s that are only copied. No
  floating-point behaviour is modelled.
- `Cities.Hash`: Swift's randomly seeded `Hasher` is a parameter, the function
  from the combined id to the final value. The model does not say how it
  mixes.
- `Navigation.Router`: the callback is an arbitrary closure in Swift. The
  model records each invocation and the state it observed, not any effect the
  closure has.
  - `NavigationPath` is type-erased. Its elements are modelled as a
    destination or another value of one hashable type.
  - `viewFor(for:)` builds views and is left out.
- `DataStates.Equal`: Swift's `Error` existential is a type parameter, and
  `localizedDescription` is the `describe` parameter.
