/**
 * The static directory data (src/data/people.ts): the person record, the `'all'` wildcard
 * of the category, platform, country and region selectors, the country and region option
 * lists derived from the people, and the magnitude suffix `formatNumber` chooses.
 */
module People {
  import opened Wrappers
  import opened Strings
  import Sequences

  datatype Person = Person(
    id: string,
    name: string,
    handle: string,
    followers: int,
    imageUrl: string,
    category: string,
    platform: string,
    country: string,
    region: string,
    description: string)

  /** The wildcard every selector type admits besides its concrete values. */
  const All: string := "all"

  /** One entry of a filter drop-down: its `value` and its `label` (a reserved word here, so `caption`). */
  datatype FilterOption = FilterOption(value: string, caption: string)

  function Values(options: seq<FilterOption>): seq<string>
  {
    seq(|options|, i requires 0 <= i < |options| => options[i].value)
  }

  /** `people.map(person => person.country)`. */
  function CountriesOf(people: seq<Person>): seq<string>
  {
    seq(|people|, i requires 0 <= i < |people| => people[i].country)
  }

  /** `people.map(person => person.region)`. */
  function RegionsOf(people: seq<Person>): seq<string>
  {
    seq(|people|, i requires 0 <= i < |people| => people[i].region)
  }

  /** `Array.from(new Set(values)).sort()`: each value once, in ascending order. */
  function DistinctSorted(values: seq<string>): (r: seq<string>)
    ensures StrictlySorted(r) && Sequences.NoDuplicates(r)
    ensures forall v :: v in r <==> v in values
  {
    var distinct := Sequences.Distinct(values);
    SortDistinct(distinct);
    StrictlySortedHasNoDuplicates(Sort(distinct));
    Sort(distinct)
  }

  /** `.map(v => ({ value: v, label: v }))` behind the wildcard option `head`. */
  function OptionList(head: FilterOption, values: seq<string>): (r: seq<FilterOption>)
    ensures |r| == |values| + 1 && r[0] == head
    ensures Values(r[1..]) == values
    ensures forall i :: 1 <= i < |r| ==> r[i].caption == r[i].value
  {
    [head] + seq(|values|, i requires 0 <= i < |values| => FilterOption(values[i], values[i]))
  }

  /** `countries`: the wildcard, then every country of `people` once, ascending, labelled by itself. */
  function Countries(people: seq<Person>): (r: seq<FilterOption>)
    ensures |r| >= 1 && r[0] == FilterOption(All, "All Countries")
    ensures forall i :: 1 <= i < |r| ==> r[i].caption == r[i].value
    ensures StrictlySorted(Values(r[1..])) && Sequences.NoDuplicates(Values(r[1..]))
    ensures forall c :: c in Values(r[1..]) <==> exists p :: p in people && p.country == c
  {
    var r := OptionList(FilterOption(All, "All Countries"), DistinctSorted(CountriesOf(people)));
    assert forall c :: c in CountriesOf(people) <==> exists p :: p in people && p.country == c by {
      forall c ensures c in CountriesOf(people) ==> exists p :: p in people && p.country == c {
        if c in CountriesOf(people) {
          var i :| 0 <= i < |people| && CountriesOf(people)[i] == c;
          assert people[i] in people;
        }
      }
      forall p | p in people ensures p.country in CountriesOf(people) {
        var i :| 0 <= i < |people| && people[i] == p;
        assert CountriesOf(people)[i] == p.country;
      }
    }
    r
  }

  /** `regions`: the wildcard, then every region of `people` once, ascending, labelled by itself. */
  function Regions(people: seq<Person>): (r: seq<FilterOption>)
    ensures |r| >= 1 && r[0] == FilterOption(All, "All Regions")
    ensures forall i :: 1 <= i < |r| ==> r[i].caption == r[i].value
    ensures StrictlySorted(Values(r[1..])) && Sequences.NoDuplicates(Values(r[1..]))
    ensures forall g :: g in Values(r[1..]) <==> exists p :: p in people && p.region == g
  {
    var r := OptionList(FilterOption(All, "All Regions"), DistinctSorted(RegionsOf(people)));
    assert forall g :: g in RegionsOf(people) <==> exists p :: p in people && p.region == g by {
      forall g ensures g in RegionsOf(people) ==> exists p :: p in people && p.region == g {
        if g in RegionsOf(people) {
          var i :| 0 <= i < |people| && RegionsOf(people)[i] == g;
          assert people[i] in people;
        }
      }
      forall p | p in people ensures p.region in RegionsOf(people) {
        var i :| 0 <= i < |people| && people[i] == p;
        assert RegionsOf(people)[i] == p.region;
      }
    }
    r
  }

  /** A strictly ascending list has no repeated value. */
  lemma StrictlySortedHasNoDuplicates(s: seq<string>)
    requires StrictlySorted(s)
    ensures Sequences.NoDuplicates(s)
  {
    forall i, j | 0 <= i < j < |s| ensures s[i] != s[j] {
      LessIrreflexive(s[i]);
    }
  }

  /** How `formatNumber` renders a count: divided and suffixed, or printed as it is. */
  datatype Formatted = Scaled(divisor: nat, suffix: char) | Plain(text: string)

  /**
   * `formatNumber`: the thresholds are tested from the largest down. The digits that
   * `toFixed(1)` prints for the quotient are not modelled.
   */
  function FormatNumber(n: int): (r: Formatted)
    ensures r == Scaled(1000000000, 'B') <==> n >= 1000000000
    ensures r == Scaled(1000000, 'M') <==> 1000000 <= n < 1000000000
    ensures r == Scaled(1000, 'K') <==> 1000 <= n < 1000000
    ensures r.Plain? <==> n < 1000
    ensures r.Plain? ==> r.text == IntToString(n) && ParseInt(r.text) == Some(n)
  {
    if n >= 1000000000 then Scaled(1000000000, 'B')
    else if n >= 1000000 then Scaled(1000000, 'M')
    else if n >= 1000 then Scaled(1000, 'K')
    else ParseIntOfIntToString(n); Plain(IntToString(n))
  }

  /** The divisor a rendering applies, 1 for a plain number. */
  function Scale(f: Formatted): nat
  {
    match f
    case Scaled(d, _) => d
    case Plain(_) => 1
  }

  /** A larger count never gets a smaller suffix. */
  lemma FormatNumberMonotone(a: int, b: int)
    requires a <= b
    ensures Scale(FormatNumber(a)) <= Scale(FormatNumber(b))
  {
  }
}
