/**
 * The pure part of the city repository: the case-insensitive prefix filter
 * and `sortAndLimit`, which sorts by the pair (name, country) and keeps the
 * first `maxResults` cities.
 */
module CitySearch {
  import opened Text
  import opened Cities

  /** `($0.name, $0.country) < ($1.name, $1.country)`: Swift's tuple order. */
  predicate KeyLess(a: City, b: City): (less: bool)
    ensures a.name != b.name ==> (less <==> LexLess(a.name, b.name))
    ensures a.name == b.name ==> (less <==> LexLess(a.country, b.country))
    ensures less ==> !SameKey(a, b)
  {
    if a.name != b.name then LexLess(a.name, b.name) else LexLess(a.country, b.country)
  }


  lemma KeyLessIrreflexive(a: City)
    ensures !KeyLess(a, a)
  {
    LexIrreflexive(a.country);
  }

  lemma KeyLessTransitive(a: City, b: City, c: City)
    requires KeyLess(a, b) && KeyLess(b, c)
    ensures KeyLess(a, c)
  {
    if a.name != b.name && b.name != c.name {
      LexTransitive(a.name, b.name, c.name);
      if a.name == c.name {
        LexIrreflexive(a.name);
      }
    } else if a.name == b.name && b.name == c.name {
      LexTransitive(a.country, b.country, c.country);
    }
  }

  /** Of two cities with different keys, one comes first. */
  lemma KeyLessTotal(a: City, b: City)
    ensures SameKey(a, b) || KeyLess(a, b) || KeyLess(b, a)
  {
    LexTotal(a.name, b.name);
    LexTotal(a.country, b.country);
  }

  /** "Not after" is transitive: the order is a total preorder on cities. */
  lemma NotAfterTransitive(a: City, b: City, c: City)
    requires !KeyLess(b, a) && !KeyLess(c, b)
    ensures !KeyLess(c, a)
  {
    if KeyLess(c, a) {
      KeyLessTotal(a, b);
      if KeyLess(a, b) {
        KeyLessTransitive(c, a, b);
      }
    }
  }

  /** Non-decreasing in (name, country). */
  predicate SameKey(a: City, b: City)
  {
    a.name == b.name && a.country == b.country
  }

  predicate Sorted(s: seq<City>)
  {
    forall i, j :: 0 <= i < j < |s| ==> !KeyLess(s[j], s[i])
  }

  /** No element of `s` comes before `x`. */
  predicate NoneBefore(x: City, s: seq<City>)
  {
    forall i :: 0 <= i < |s| ==> !KeyLess(s[i], x)
  }

  lemma SortedCons(x: City, s: seq<City>)
    requires Sorted(s) && NoneBefore(x, s)
    ensures Sorted([x] + s)
  {
  }

  lemma NoneBeforeOfMultiset(x: City, s: seq<City>, t: seq<City>)
    requires NoneBefore(x, s) && multiset(t) <= multiset(s)
    ensures NoneBefore(x, t)
  {
    forall i | 0 <= i < |t| ensures !KeyLess(t[i], x) {
      assert t[i] in multiset(t);
    }
  }

  /** Places `x` in the sorted `s` after every city that comes before it. */
  function Insert(x: City, s: seq<City>): (r: seq<City>)
    requires Sorted(s)
    ensures Sorted(r)
    ensures multiset(r) == multiset(s) + multiset{x}
    decreases |s|
  {
    if s == [] then [x]
    else if KeyLess(s[0], x) then
      var rest := Insert(x, s[1..]);
      assert s == [s[0]] + s[1..];
      assert NoneBefore(s[0], s[1..] + [x]) by {
        KeyLessIrreflexive(s[0]);
        if KeyLess(x, s[0]) {
          KeyLessTransitive(x, s[0], x);
          KeyLessIrreflexive(x);
        }
      }
      NoneBeforeOfMultiset(s[0], s[1..] + [x], rest);
      SortedCons(s[0], rest);
      [s[0]] + rest
    else
      assert NoneBefore(x, s) by {
        forall i | 0 <= i < |s| ensures !KeyLess(s[i], x) {
          if i > 0 {
            NotAfterTransitive(x, s[0], s[i]);
          }
        }
      }
      SortedCons(x, s);
      [x] + s
  }

  /** `sorted(by:)` on the (name, country) order: a sorted permutation of `s`. */
  function Sort(s: seq<City>): (r: seq<City>)
    ensures Sorted(r)
    ensures multiset(r) == multiset(s)
    ensures |r| == |s|
    decreases |s|
  {
    if s == [] then []
    else
      assert s == [s[0]] + s[1..];
      Insert(s[0], Sort(s[1..]))
  }

  function Min(a: nat, b: nat): nat
  {
    if a <= b then a else b
  }

  /**
   * `sortAndLimit`: the first `maxResults` cities of `s` in (name, country)
   * order.  Swift's `prefix` traps on a negative count, so `maxResults` is a
   * `nat`.
   */
  function SortAndLimit(s: seq<City>, maxResults: nat): (r: seq<City>)
    ensures |r| == Min(|s|, maxResults)
    ensures Sorted(r)
    ensures multiset(r) <= multiset(s)
    ensures |s| <= maxResults ==> multiset(r) == multiset(s)
  {
    var sorted := Sort(s);
    assert sorted == sorted[..Min(|s|, maxResults)] + sorted[Min(|s|, maxResults)..];
    sorted[..Min(|s|, maxResults)]
  }

  /** In a sorted sequence nothing after position `k` comes before anything ahead of it. */
  lemma SortedSplit(t: seq<City>, k: nat)
    requires Sorted(t) && k <= |t|
    ensures forall x, y :: x in multiset(t[k..]) && y in t[..k] ==> !KeyLess(x, y)
  {
    forall x, y | x in multiset(t[k..]) && y in t[..k]
      ensures !KeyLess(x, y)
    {
      assert x in t[k..];
      var j :| k <= j < |t| && t[j] == x;
      var i :| 0 <= i < k && t[i] == y;
    }
  }

  lemma MultisetOfSplit(t: seq<City>, k: nat)
    requires k <= |t|
    ensures multiset(t) - multiset(t[..k]) == multiset(t[k..])
  {
    assert t == t[..k] + t[k..];
  }

  /**
   * What `sortAndLimit` leaves out never comes before what it keeps: the
   * result is made of the smallest cities of `s`.
   */
  lemma {:induction false} SortAndLimitKeepsFirst(s: seq<City>, maxResults: nat)
    ensures forall x, y :: x in multiset(s) - multiset(SortAndLimit(s, maxResults)) && y in SortAndLimit(s, maxResults)
              ==> !KeyLess(x, y)
  {
    var sorted := Sort(s);
    var k := Min(|s|, maxResults);
    assert SortAndLimit(s, maxResults) == sorted[..k];
    MultisetOfSplit(sorted, k);
    SortedSplit(sorted, k);
  }

  /** The filter of `searchCities`: the name, lower-cased, starts with `prefix`. */
  predicate Matches(c: City, prefix: string): (m: bool)
    ensures m <==> |prefix| <= |c.name| && forall i :: 0 <= i < |prefix| ==> prefix[i] == Lower(c.name)[i]
  {
    prefix <= Lower(c.name)
  }

  /** `cities.filter { $0.name.lowercased().hasPrefix(prefix) }`: order kept, matching cities only. */
  function Filter(s: seq<City>, prefix: string): (r: seq<City>)
    ensures forall c :: c in r <==> c in s && Matches(c, prefix)
    ensures |r| <= |s|
    decreases |s|
  {
    if s == [] then []
    else
      (if Matches(s[0], prefix) then [s[0]] else []) + Filter(s[1..], prefix)
  }

  /** Filtering a concatenation filters each part and concatenates the results. */
  lemma {:induction false} FilterAppend(s: seq<City>, t: seq<City>, prefix: string)
    ensures Filter(s + t, prefix) == Filter(s, prefix) + Filter(t, prefix)
    decreases |s|
  {
    if s == [] {
      assert s + t == t;
    } else {
      assert (s + t)[0] == s[0] && (s + t)[1..] == s[1..] + t;
      FilterAppend(s[1..], t, prefix);
    }
  }

  /** The filter keeps each matching city as often as it occurs, and no other city. */
  lemma {:induction false} FilterCounts(s: seq<City>, prefix: string)
    ensures forall c :: multiset(Filter(s, prefix))[c] == if Matches(c, prefix) then multiset(s)[c] else 0
    decreases |s|
  {
    if s != [] {
      FilterCounts(s[1..], prefix);
      assert s == [s[0]] + s[1..];
    }
  }

  /** Every name starts with the empty prefix, so filtering on it keeps everything. */
  lemma {:induction false} FilterEmptyPrefix(s: seq<City>)
    ensures Filter(s, []) == s
    decreases |s|
  {
    if s != [] {
      FilterEmptyPrefix(s[1..]);
      assert Matches(s[0], []);
      assert s == [s[0]] + s[1..];
    }
  }

  lemma MembersOfSubMultiset(r: seq<City>, s: seq<City>)
    requires multiset(r) <= multiset(s)
    ensures forall c :: c in r ==> c in s
  {
    forall c | c in r ensures c in s {
      assert c in multiset(r);
    }
  }

  /** What sorting and capping the cities that match `prefix` gives. */
  lemma SelectionProperties(cities: seq<City>, prefix: string, maxResults: nat)
    ensures var r := SortAndLimit(Filter(cities, prefix), maxResults);
      && multiset(r) <= multiset(cities)
      && (forall c :: c in r ==> Matches(c, prefix))
      && (|r| < maxResults ==> forall c :: c in cities && Matches(c, prefix) ==> c in r)
      && ((forall c :: c in cities ==> !Matches(c, prefix)) ==> r == [])
  {
    var found := Filter(cities, prefix);
    var r := SortAndLimit(found, maxResults);
    assert multiset(found) <= multiset(cities) by {
      FilterCounts(cities, prefix);
    }
    MembersOfSubMultiset(r, found);
    if |r| < maxResults {
      assert multiset(r) == multiset(found);
      forall c | c in cities && Matches(c, prefix) ensures c in r {
        assert c in found;
        assert c in multiset(found);
      }
    }
    if found != [] {
      assert found[0] in found;
    }
  }

  /**
   * The list `searchCities(with: term)` publishes: every loaded city, sorted
   * and capped, for the empty term; otherwise the cities whose lower-cased
   * name starts with the lower-cased term, sorted and capped.
   */
  function SearchResults(cities: seq<City>, term: string, maxResults: nat): (r: seq<City>)
    ensures |r| <= maxResults && Sorted(r)
    ensures multiset(r) <= multiset(cities)
    ensures forall c :: c in r ==> Matches(c, Lower(term))
    ensures |r| == Min(|Filter(cities, Lower(term))|, maxResults)
    ensures |r| < maxResults ==> forall c :: c in cities && Matches(c, Lower(term)) ==> c in r
    ensures (forall c :: c in cities ==> !Matches(c, Lower(term))) ==> r == []
  {
    SelectionProperties(cities, Lower(term), maxResults);
    if term == [] then
      assert Lower(term) == [];
      FilterEmptyPrefix(cities);
      SortAndLimit(cities, maxResults)
    else
      SortAndLimit(Filter(cities, Lower(term)), maxResults)
  }

  /** Two cities in strict order can be sorted only one way. */
  lemma SortedPair(r: seq<City>, a: City, b: City)
    requires Sorted(r) && multiset(r) == multiset([a, b]) && KeyLess(a, b)
    ensures r == [a, b]
  {
    assert |r| == |multiset(r)| == 2;
    assert r[0] in multiset(r) && r[1] in multiset(r);
    assert multiset(r) == multiset{r[0], r[1]} by {
      assert r == [r[0], r[1]];
    }
    assert !KeyLess(r[1], r[0]);
  }

  /** Below the cap, a search with one result returns the matching city it must hold. */
  lemma SearchFindsOnly(cities: seq<City>, term: string, maxResults: nat, c: City)
    requires |SearchResults(cities, term, maxResults)| == 1 < maxResults
    requires c in cities && Matches(c, Lower(term))
    ensures SearchResults(cities, term, maxResults) == [c]
  {
  }

  /** Below the cap, a search returns every matching city. */
  lemma SearchFinds(cities: seq<City>, term: string, maxResults: nat, c: City)
    requires |SearchResults(cities, term, maxResults)| < maxResults
    requires c in cities && Matches(c, Lower(term))
    ensures c in SearchResults(cities, term, maxResults)
  {
  }

  /** The empty-term shortcut publishes what the general prefix filter would. */
  lemma EmptyTermIsUnfiltered(cities: seq<City>, maxResults: nat)
    ensures SearchResults(cities, "", maxResults) == SortAndLimit(Filter(cities, Lower("")), maxResults)
    ensures SearchResults(cities, "", maxResults) == SortAndLimit(cities, maxResults)
  {
    FilterEmptyPrefix(cities);
  }

  /** The term's case does not matter: an upper-cased or lower-cased term finds the same cities. */
  lemma SearchIgnoresTermCase(cities: seq<City>, term: string, maxResults: nat)
    ensures SearchResults(cities, Upper(term), maxResults) == SearchResults(cities, term, maxResults)
    ensures SearchResults(cities, Lower(term), maxResults) == SearchResults(cities, term, maxResults)
  {
    LowerOfUpper(term);
    LowerIdempotent(term);
  }

  /** A longer term narrows the search: what matches it matches every prefix of it. */
  lemma MatchesPrefixOfTerm(c: City, shorter: string, longer: string)
    requires shorter <= longer && Matches(c, longer)
    ensures Matches(c, shorter)
  {
  }
}
