/**
 * The seeding step of the home page (src/pages/Index.tsx): when the record store looks
 * empty and a user is logged in, the static people are written to it as ranked rows.
 * The store's answer to the count query and the login state are parameters.
 */
module IndexPage {
  import opened Wrappers
  import opened Records
  import opened People

  /** `initializeData`'s row for the person at position `index`. */
  function RowOf(person: Person, index: nat): Influencer
  {
    Influencer(
      name := person.name,
      handle := person.handle,
      followers := person.followers,
      imageUrl := person.imageUrl,
      category := person.category,
      platform := person.platform,
      country := person.country,
      region := person.region,
      description := person.description,
      rank := index + 1)
  }

  /** `staticPeople.map((person, index) => ...)`: one row per person, in order, ranked by position. */
  function InitialRows(people: seq<Person>): (r: seq<Influencer>)
    ensures |r| == |people| && DenseRanks(r)
    ensures forall i :: 0 <= i < |r| ==>
      && r[i].name == people[i].name
      && r[i].handle == people[i].handle
      && r[i].followers == people[i].followers
      && r[i].imageUrl == people[i].imageUrl
      && r[i].category == people[i].category
      && r[i].platform == people[i].platform
      && r[i].country == people[i].country
      && r[i].region == people[i].region
      && r[i].description == people[i].description
  {
    seq(|people|, i requires 0 <= i < |people| => RowOf(people[i], i))
  }

  /** The person a row describes, given the identifier the row does not carry. */
  function PersonOf(row: Influencer, id: string): Person
  {
    Person(id, row.name, row.handle, row.followers, row.imageUrl, row.category,
           row.platform, row.country, row.region, row.description)
  }

  /** Nothing but the identifier is lost: each person can be read back from its row. */
  lemma InitialRowsRoundTrip(people: seq<Person>)
    ensures forall i :: 0 <= i < |people| ==> PersonOf(InitialRows(people)[i], people[i].id) == people[i]
  {
  }

  /** Row handles repeat exactly where the people's handles do. */
  lemma InitialRowsHandles(people: seq<Person>)
    ensures DistinctHandles(InitialRows(people)) <==>
              forall i, j :: 0 <= i < j < |people| ==> people[i].handle != people[j].handle
  {
  }

  /** The count query's answer: a returned error and a possibly null count, or a thrown error. */
  datatype CountAnswer = Answered(error: bool, count: Option<int>) | QueryThrew

  /** `checkData`'s test: an error, or a non-null count of 0, while a user is logged in. */
  predicate ShouldInitialize(answer: CountAnswer, loggedIn: bool)
    ensures ShouldInitialize(answer, loggedIn) ==> loggedIn && answer.Answered?
    ensures ShouldInitialize(answer, loggedIn) && !answer.error ==> answer.count == Some(0)
  {
    && answer.Answered?
    && (answer.error || answer.count == Some(0))
    && loggedIn
  }

  /** The cases of the test, as the page distinguishes them. */
  lemma ShouldInitializeCases(answer: CountAnswer, loggedIn: bool)
    ensures !loggedIn ==> !ShouldInitialize(answer, loggedIn)
    ensures answer == QueryThrew ==> !ShouldInitialize(answer, loggedIn)
    ensures answer == Answered(false, None) ==> !ShouldInitialize(answer, loggedIn)
    ensures forall n :: n != 0 ==> !ShouldInitialize(Answered(false, Some(n)), loggedIn)
    ensures loggedIn ==> ShouldInitialize(Answered(false, Some(0)), loggedIn)
    ensures forall c :: loggedIn ==> ShouldInitialize(Answered(true, c), loggedIn)
  {
  }
}
