/**
 * The listing filter of the person grid (src/components/PersonGrid.tsx): the people whose
 * category and platform match the two selectors, each of which may be the wildcard.
 * The grid takes no country or region selector, so those choices never narrow the listing.
 */
module PersonGrid {
  import opened People
  import Sequences

  /** The predicate passed to `people.filter`. */
  predicate Selected(person: Person, category: string, platform: string)
  {
    && (category == All || person.category == category)
    && (platform == All || person.platform == platform)
  }

  /** The filtered listing: the selected people, in their original order. */
  function FilterPeople(people: seq<Person>, category: string, platform: string): (r: seq<Person>)
    ensures forall p :: p in r <==> p in people && Selected(p, category, platform)
    ensures Sequences.IsSubsequence(r, people)
  {
    Sequences.FilterIsSubsequence(people, p => Selected(p, category, platform));
    Sequences.Filter(people, p => Selected(p, category, platform))
  }

  /** A concrete category or platform selector admits only people with exactly that value. */
  lemma FilterPeopleHonoursSelectors(people: seq<Person>, category: string, platform: string, p: Person)
    requires p in FilterPeople(people, category, platform)
    ensures category != All ==> p.category == category
    ensures platform != All ==> p.platform == platform
  {
  }

  /** Every selected person appears, as often as in the input; every other person is absent. */
  lemma FilterPeopleComplete(people: seq<Person>, category: string, platform: string, p: Person)
    ensures multiset(FilterPeople(people, category, platform))[p]
         == if Selected(p, category, platform) then multiset(people)[p] else 0
  {
    Sequences.FilterMultiplicity(people, q => Selected(q, category, platform), p);
  }

  /** With both selectors on the wildcard, the listing is the whole input. */
  lemma FilterPeopleAllAll(people: seq<Person>)
    ensures FilterPeople(people, All, All) == people
  {
    Sequences.FilterKeepsAll(people, p => Selected(p, All, All));
  }

  /** Filtering a listing again with the same selectors leaves it unchanged. */
  lemma FilterPeopleIdempotent(people: seq<Person>, category: string, platform: string)
    ensures FilterPeople(FilterPeople(people, category, platform), category, platform)
         == FilterPeople(people, category, platform)
  {
    Sequences.FilterIdempotent(people, p => Selected(p, category, platform));
  }

  /**
   * The home page hands the grid all four selectors, but the grid reads only category and
   * platform: the country and region arguments are dropped here as they are there.
   */
  function HomeListing(people: seq<Person>, category: string, platform: string, country: string, region: string): (r: seq<Person>)
    ensures forall p :: p in r <==> p in people && Selected(p, category, platform)
    ensures Sequences.IsSubsequence(r, people)
  {
    FilterPeople(people, category, platform)
  }

  /** Two choices of country and region always give the same listing. */
  lemma HomeListingIgnoresCountryAndRegion(people: seq<Person>, category: string, platform: string,
                                           country1: string, region1: string, country2: string, region2: string)
    ensures HomeListing(people, category, platform, country1, region1)
         == HomeListing(people, category, platform, country2, region2)
  {
  }

  /** The example record: a sports account on Instagram from Portugal. */
  const Example: Person := Person("1", "Cristiano Ronaldo", "@cristiano", 612000000, "", "sports",
                                  "instagram", "Portugal", "Europe", "")

  /** The category selector keeps or drops the example record by its category. */
  lemma ExampleByCategory()
    ensures FilterPeople([Example], "sports", All) == [Example]
    ensures FilterPeople([Example], "politics", All) == []
  {
    assert Selected(Example, "sports", All);
    assert Example !in FilterPeople([Example], "politics", All);
  }

  /** Choosing the USA and North America still lists the Portuguese, European record. */
  lemma CountryAndRegionDoNotNarrow()
    ensures Example.country != "USA" && Example.region != "North America"
    ensures HomeListing([Example], All, All, "USA", "North America") == [Example]
  {
    FilterPeopleAllAll([Example]);
  }
}
