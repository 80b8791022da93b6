/**
 * The free-text search of the search dialog (src/components/SearchDialog.tsx): a blank
 * query finds nobody; otherwise a person is found when the lower-cased query occurs in the
 * lower-cased name, category, country or platform. Only the blankness test trims the query.
 */
module SearchDialog {
  import opened People
  import opened Strings
  import Sequences

  /** The four-way `includes` test, for a query that is already lower-cased. */
  predicate MatchesQuery(person: Person, query: string)
  {
    || Contains(ToLower(person.name), query)
    || Contains(ToLower(person.category), query)
    || Contains(ToLower(person.country), query)
    || Contains(ToLower(person.platform), query)
  }

  /** The search results for `searchQuery`, in the order of `people`. */
  function Search(people: seq<Person>, searchQuery: string): (r: seq<Person>)
    ensures AllWhitespace(searchQuery) ==> r == []
    ensures !AllWhitespace(searchQuery) ==>
              forall p :: p in r <==> p in people && MatchesQuery(p, ToLower(searchQuery))
    ensures Sequences.IsSubsequence(r, people)
  {
    TrimEmptyIffBlank(searchQuery);
    if Trim(searchQuery) == "" then []
    else
      var query := ToLower(searchQuery);
      Sequences.FilterIsSubsequence(people, p => MatchesQuery(p, query));
      Sequences.Filter(people, p => MatchesQuery(p, query))
  }

  /** A non-blank query keeps every copy of each matching person and no copy of any other. */
  lemma SearchComplete(people: seq<Person>, searchQuery: string, p: Person)
    requires !AllWhitespace(searchQuery)
    ensures multiset(Search(people, searchQuery))[p]
         == if MatchesQuery(p, ToLower(searchQuery)) then multiset(people)[p] else 0
  {
    TrimEmptyIffBlank(searchQuery);
    var query := ToLower(searchQuery);
    Sequences.FilterMultiplicity(people, q => MatchesQuery(q, query), p);
  }

  /** Searching for a person's platform finds that person. */
  lemma SearchFindsPlatform(people: seq<Person>, p: Person)
    requires p in people && !AllWhitespace(p.platform)
    ensures p in Search(people, p.platform)
  {
    ContainsSelf(ToLower(p.platform));
  }

  /** Queries that lower-case alike find the same people. */
  lemma SearchCaseInsensitive(people: seq<Person>, q1: string, q2: string)
    requires ToLower(q1) == ToLower(q2)
    ensures Search(people, q1) == Search(people, q2)
  {
    ToLowerKeepsBlank(q1);
    ToLowerKeepsBlank(q2);
    TrimEmptyIffBlank(q1);
    TrimEmptyIffBlank(q2);
  }

  /** A static record whose searched fields contain no space. */
  const Nike: Person := Person("10", "Nike", "@nike", 304000000, "", "business", "instagram",
                               "USA", "North America", "")

  /**
   * The query is trimmed only to decide blankness: "nike" finds the record, and "nike "
   * with its trailing space does not, since no searched field contains a space.
   */
  lemma SearchMatchesUntrimmedQuery()
    ensures Search([Nike], "nike") == [Nike]
    ensures Search([Nike], "nike ") == []
  {
    SearchNikeFinds();
    SearchNikeSpaceMisses();
  }

  lemma SearchNikeFinds()
    ensures Search([Nike], "nike") == [Nike]
  {
    assert !AllWhitespace("nike") by {
      assert !IsWhitespace("nike"[0]);
    }
    NikeLowerCase();
    ContainsSelf("nike");
    assert MatchesQuery(Nike, ToLower("nike"));
    Sequences.FilterKeepsAll([Nike], p => MatchesQuery(p, ToLower("nike")));
  }

  lemma SearchNikeSpaceMisses()
    ensures Search([Nike], "nike ") == []
  {
    assert !AllWhitespace("nike ") by {
      assert !IsWhitespace("nike "[0]);
    }
    NikeMissesSpace();
    var r := Search([Nike], "nike ");
    assert Nike !in r;
  }

  lemma NikeLowerCase()
    ensures ToLower("nike") == "nike" && ToLower("nike ") == "nike "
    ensures ToLower("Nike") == "nike"
  {
  }

  lemma NikeMissesSpace()
    ensures !MatchesQuery(Nike, ToLower("nike "))
  {
    NikeLowerCase();
    NoSpaceNoMatch(ToLower(Nike.name));
    NoSpaceNoMatch(ToLower(Nike.category));
    NoSpaceNoMatch(ToLower(Nike.country));
    NoSpaceNoMatch(ToLower(Nike.platform));
  }

  lemma NoSpaceNoMatch(s: string)
    requires ' ' !in s
    ensures !Contains(s, "nike ")
  {
    MissingCharacter(s, "nike ", 4);
  }
}
