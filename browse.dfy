/**
 * The listing browser's client-side search: the `filtered` value of the
 * AirbnbLite component, recomputed from the cached listings and the query.
 */
module Browse {
  import opened Text
  import opened Sequences

  /** A listing as the browser receives it from `/api/listings`. */
  datatype Listing = Listing(id: int, title: string, city: string, kind: string, price: int, image: string)

  /** The query, lower-cased, occurs in the lower-cased title or the lower-cased city. */
  predicate Matches(l: Listing, query: string) {
    Contains(Lower(l.title), Lower(query)) || Contains(Lower(l.city), Lower(query))
  }

  /** `listings.filter(l => ...)`: the matching listings in their original order. */
  function Filter(listings: seq<Listing>, query: string): (r: seq<Listing>)
    ensures |r| <= |listings|
    ensures forall l :: l in r ==> l in listings && Matches(l, query)
  {
    if listings == [] then []
    else if Matches(listings[0], query) then [listings[0]] + Filter(listings[1..], query)
    else Filter(listings[1..], query)
  }

  /** The result keeps the original order: it is a subsequence of the cache. */
  lemma {:induction false} FilterIsSubsequence(listings: seq<Listing>, query: string)
    ensures IsSubsequence(Filter(listings, query), listings)
  {
    if listings != [] {
      FilterIsSubsequence(listings[1..], query);
      var rest := Filter(listings[1..], query);
      if Matches(listings[0], query) {
        assert Filter(listings, query)[1..] == rest;
      } else {
        if rest != [] {
          assert IsSubsequence(rest, listings[1..]);
        }
      }
    }
  }

  /** Every occurrence of a matching listing is kept and no other listing is. */
  lemma {:induction false} FilterCounts(listings: seq<Listing>, query: string, l: Listing)
    ensures multiset(Filter(listings, query))[l] == if Matches(l, query) then multiset(listings)[l] else 0
  {
    if listings != [] {
      FilterCounts(listings[1..], query, l);
      assert listings == [listings[0]] + listings[1..];
      assert multiset(listings) == multiset{listings[0]} + multiset(listings[1..]);
    }
  }

  /** A listing is displayed exactly when it is cached and matches. */
  lemma FilterMembership(listings: seq<Listing>, query: string, l: Listing)
    ensures l in Filter(listings, query) <==> l in listings && Matches(l, query)
  {
    FilterCounts(listings, query, l);
  }

  /** The empty query shows the whole cache unchanged. */
  lemma {:induction false} FilterEmptyQuery(listings: seq<Listing>)
    ensures Filter(listings, "") == listings
  {
    if listings != [] {
      FilterEmptyQuery(listings[1..]);
      ContainsEmpty(Lower(listings[0].title));
      assert Lower("") == "";
      assert Matches(listings[0], "");
    }
  }

  /** Searching is case-insensitive: lower-casing the query changes nothing. */
  lemma {:induction false} FilterIgnoresQueryCase(listings: seq<Listing>, query: string)
    ensures Filter(listings, Lower(query)) == Filter(listings, query)
  {
    LowerIdempotent(query);
    if listings != [] {
      FilterIgnoresQueryCase(listings[1..], query);
      assert Matches(listings[0], Lower(query)) == Matches(listings[0], query);
    }
  }

  /** A title match displays a one-element cache. */
  lemma FilterSingleTitleMatch(l: Listing, query: string)
    requires Contains(Lower(l.title), Lower(query))
    ensures Filter([l], query) == [l]
  {
    assert [l][1..] == [];
  }

  /** A query whose first letter is in neither field hides a one-element cache. */
  lemma FilterSingleMiss(l: Listing, query: string)
    requires |query| > 0
    requires Lower(query)[0] !in Lower(l.title) && Lower(query)[0] !in Lower(l.city)
    ensures Filter([l], query) == []
  {
    if Contains(Lower(l.title), Lower(query)) {
      ContainsFirstChar(Lower(l.title), Lower(query));
    }
    if Contains(Lower(l.city), Lower(query)) {
      ContainsFirstChar(Lower(l.city), Lower(query));
    }
    assert [l][1..] == [];
  }

  lemma LowerLoftCentro(t: string)
    requires t == "Loft Centro"
    ensures Lower(t) == "loft centro"
  {
  }

  lemma LowerRosario(t: string)
    requires t == "Rosario"
    ensures Lower(t) == "rosario"
  {
  }

  lemma LowerOfLowerCaseWord(t: string)
    requires t == "centro" || t == "palermo"
    ensures Lower(t) == t
  {
  }

  lemma ContainsCentro(s: string, t: string)
    requires s == "loft centro" && t == "centro"
    ensures Contains(s, t)
  {
    assert InfixAt(s, t, 5);
    ContainsIff(s, t);
  }

  lemma LacksP(s: string)
    requires s == "loft centro" || s == "rosario"
    ensures 'p' !in s
  {
  }

  /** The browsing scenario: "centro" finds "Loft Centro" in Rosario. */
  lemma FilterScenarioFound(l: Listing, query: string)
    requires l == Listing(1, "Loft Centro", "Rosario", "Departamento", 50, "x") && query == "centro"
    ensures Filter([l], query) == [l]
  {
    LowerLoftCentro(l.title);
    LowerOfLowerCaseWord(query);
    ContainsCentro(Lower(l.title), Lower(query));
    FilterSingleTitleMatch(l, query);
  }

  /** The browsing scenario: "palermo" finds nothing. */
  lemma FilterScenarioNone(l: Listing, query: string)
    requires l == Listing(1, "Loft Centro", "Rosario", "Departamento", 50, "x") && query == "palermo"
    ensures Filter([l], query) == []
  {
    LowerLoftCentro(l.title);
    LowerRosario(l.city);
    LowerOfLowerCaseWord(query);
    LacksP(Lower(l.title));
    LacksP(Lower(l.city));
    FilterSingleMiss(l, query);
  }
}
