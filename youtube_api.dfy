/**
 * The YouTube refresh function (supabase/functions/youtube-api/index.ts): the country to
 * region lookup, the keyword-based category guess, the mapping from channel data to
 * influencer rows, the mock batch, and the choice between live and mock data.
 */
module YouTubeApi {
  import opened Wrappers
  import opened Strings
  import opened Records

  /**
   * The parts of a channel the mapping reads. `brandingCountry` is
   * `brandingSettings?.channel?.country`, `None` when any step of that path is absent.
   */
  datatype Channel = Channel(
    id: string,
    title: string,
    description: string,
    highThumbnailUrl: string,
    snippetCountry: Option<string>,
    subscriberCount: string,
    brandingCountry: Option<string>)

  /** JavaScript truthiness of an optional string: present and not empty. */
  predicate Present(s: Option<string>)
  {
    s.Some? && s.value != ""
  }

  // ---------------------------------------------------------------- Regions

  const Unknown: string := "Unknown"

  /** `regionMap`: ISO country codes to region names. */
  const RegionMap: map<string, string> := map[
    "US" := "North America", "CA" := "North America", "MX" := "North America",
    "GB" := "Europe", "DE" := "Europe", "FR" := "Europe", "IT" := "Europe", "ES" := "Europe",
    "JP" := "Asia", "KR" := "Asia", "CN" := "Asia", "IN" := "Asia",
    "AU" := "Oceania", "NZ" := "Oceania",
    "BR" := "South America", "AR" := "South America",
    "ZA" := "Africa", "NG" := "Africa", "EG" := "Africa"]

  /** Every value `mapRegion` can return. */
  const RegionNames: set<string> :=
    {"North America", "Europe", "Asia", "Oceania", "South America", "Africa", Unknown}

  /** `mapRegion`: a listed code gets its region; an absent, empty or unlisted country gets "Unknown". */
  function MapRegion(country: Option<string>): (r: string)
    ensures r in RegionNames
    ensures Present(country) && country.value in RegionMap ==> r == RegionMap[country.value]
    ensures !(country.Some? && country.value in RegionMap) ==> r == Unknown
  {
    if !Present(country) then Unknown
    else if country.value in RegionMap && RegionMap[country.value] != "" then RegionMap[country.value]
    else Unknown
  }

  /** A country of "Unknown", the fallback of the mapping, has region "Unknown". */
  lemma MapRegionOfUnknown()
    ensures MapRegion(Some(Unknown)) == Unknown
  {
    assert Unknown !in RegionMap;
  }

  // ---------------------------------------------------------------- Categories

  /** `categoryKeywords`, in its declaration order, which is the order `Object.entries` visits it. */
  const CategoryKeywords: seq<(string, seq<string>)> := [
    ("gaming", ["gaming", "game", "playthrough", "gameplay", "xbox", "playstation", "nintendo", "fortnite", "minecraft"]),
    ("music", ["music", "song", "singer", "band", "concert", "album", "rap", "hip hop", "rock", "pop"]),
    ("education", ["education", "learn", "tutorial", "course", "study", "university", "college", "school", "academic"]),
    ("entertainment", ["entertainment", "comedy", "funny", "humor", "sketch", "vlog", "challenge", "prank"]),
    ("howto", ["how to", "diy", "tutorial", "guide", "tips", "tricks", "advice", "instructional"]),
    ("sports", ["sports", "fitness", "workout", "exercise", "gym", "athlete", "football", "basketball", "soccer"]),
    ("technology", ["tech", "technology", "gadget", "review", "unboxing", "smartphone", "computer", "coding", "programming"]),
    ("fashion", ["fashion", "style", "clothing", "outfit", "beauty", "makeup", "cosmetics", "hairstyle"]),
    ("food", ["food", "cooking", "recipe", "chef", "baking", "cuisine", "meal", "restaurant", "kitchen"]),
    ("travel", ["travel", "adventure", "destination", "tourism", "vacation", "journey", "trip", "vlog"])]

  const DefaultCategory: string := "entertainment"

  /** Some keyword of the list occurs in `text`. */
  predicate AnyKeyword(text: string, keywords: seq<string>)
  {
    exists k :: 0 <= k < |keywords| && Contains(text, keywords[k])
  }

  /** The first category of `table` with a keyword in `text`, or the default when none has one. */
  function FirstCategory(table: seq<(string, seq<string>)>, text: string): (r: string)
    ensures r == DefaultCategory || exists t :: 0 <= t < |table| && table[t].0 == r
  {
    if table == [] then DefaultCategory
    else if AnyKeyword(text, table[0].1) then table[0].0
    else FirstCategory(table[1..], text)
  }

  /** When entry `t` is the first with a matching keyword, its category is chosen. */
  lemma {:induction false} FirstCategoryAt(table: seq<(string, seq<string>)>, text: string, t: nat)
    requires t < |table| && AnyKeyword(text, table[t].1)
    requires forall j :: 0 <= j < t ==> !AnyKeyword(text, table[j].1)
    ensures FirstCategory(table, text) == table[t].0
  {
    if t > 0 {
      assert !AnyKeyword(text, table[0].1);
      FirstCategoryAt(table[1..], text, t - 1);
    }
  }

  /** When no entry has a matching keyword, the default category is chosen. */
  lemma {:induction false} FirstCategoryDefault(table: seq<(string, seq<string>)>, text: string)
    requires forall j :: 0 <= j < |table| ==> !AnyKeyword(text, table[j].1)
    ensures FirstCategory(table, text) == DefaultCategory
  {
    if table != [] {
      FirstCategoryDefault(table[1..], text);
    }
  }

  /** The category guessed for a channel description, matched case-insensitively. */
  function CategoryOf(description: string): (r: string)
    ensures exists t :: 0 <= t < |CategoryKeywords| && CategoryKeywords[t].0 == r
  {
    assert CategoryKeywords[3].0 == DefaultCategory;
    FirstCategory(CategoryKeywords, ToLower(description))
  }

  /** `determineCategory`: scan the table in order, each entry's keywords in order, and stop at the first hit. */
  method DetermineCategory(description: string) returns (category: string)
    ensures category == CategoryOf(description)
  {
    var text := ToLower(description);
    var t := 0;
    while t < |CategoryKeywords|
      invariant 0 <= t <= |CategoryKeywords|
      invariant forall j :: 0 <= j < t ==> !AnyKeyword(text, CategoryKeywords[j].1)
    {
      var keywords := CategoryKeywords[t].1;
      var k := 0;
      while k < |keywords|
        invariant 0 <= k <= |keywords|
        invariant forall m :: 0 <= m < k ==> !Contains(text, keywords[m])
      {
        if Contains(text, keywords[k]) {
          FirstCategoryAt(CategoryKeywords, text, t);
          return CategoryKeywords[t].0;
        }
        k := k + 1;
      }
      t := t + 1;
    }
    FirstCategoryDefault(CategoryKeywords, text);
    return DefaultCategory;
  }

  /** No keyword of the list occurs in `text`: keyword `m` has a character, at `at[m]`, that `text` lacks. */
  lemma NoKeyword(text: string, keywords: seq<string>, at: seq<nat>)
    requires |at| == |keywords|
    requires forall m :: 0 <= m < |keywords| ==> at[m] < |keywords[m]| && keywords[m][at[m]] !in text
    ensures !AnyKeyword(text, keywords)
  {
    forall m | 0 <= m < |keywords| ensures !Contains(text, keywords[m]) {
      MissingCharacter(text, keywords[m], at[m]);
    }
  }

  lemma LowerCaseWords()
    ensures ToLower("tutorial") == "tutorial" && ToLower("vlog") == "vlog"
  {
  }

  /** "tutorial" is a keyword of both education and howto; education comes first. */
  lemma TutorialIsEducation()
    ensures CategoryOf("tutorial") == "education"
  {
    LowerCaseWords();
    NoKeyword("tutorial", CategoryKeywords[0].1, [0, 0, 0, 0, 0, 0, 0, 0, 0]);
    NoKeyword("tutorial", CategoryKeywords[1].1, [0, 0, 0, 0, 0, 2, 2, 0, 2, 0]);
    ContainsSelf("tutorial");
    assert CategoryKeywords[2].1[2] == "tutorial";
    FirstCategoryAt(CategoryKeywords, "tutorial", 2);
  }

  /** "vlog" is a keyword of both entertainment and travel; entertainment comes first. */
  lemma VlogIsEntertainment()
    ensures CategoryOf("vlog") == "entertainment"
  {
    LowerCaseWords();
    NoKeyword("vlog", CategoryKeywords[0].1, [1, 1, 0, 1, 0, 0, 0, 0, 0]);
    NoKeyword("vlog", CategoryKeywords[1].1, [0, 0, 0, 0, 0, 0, 0, 0, 0, 0]);
    NoKeyword("vlog", CategoryKeywords[2].1, [0, 1, 0, 0, 0, 0, 0, 0, 0]);
    ContainsSelf("vlog");
    assert CategoryKeywords[3].1[5] == "vlog";
    FirstCategoryAt(CategoryKeywords, "vlog", 3);
  }

  // ---------------------------------------------------------------- Live channels

  /** The country of a channel: its branding country, else its profile country, else "Unknown". */
  function ChannelCountry(ch: Channel): (r: string)
    ensures r != ""
    ensures Present(ch.brandingCountry) ==> r == ch.brandingCountry.value
    ensures !Present(ch.brandingCountry) && Present(ch.snippetCountry) ==> r == ch.snippetCountry.value
    ensures !Present(ch.brandingCountry) && !Present(ch.snippetCountry) ==> r == Unknown
  {
    if Present(ch.brandingCountry) then ch.brandingCountry.value
    else if Present(ch.snippetCountry) then ch.snippetCountry.value
    else Unknown
  }

  /** `'@' + title.toLowerCase().replace(/\s+/g, '')`. */
  function Handle(title: string): (h: string)
    ensures |h| >= 1 && h[0] == '@'
    ensures forall i :: 1 <= i < |h| ==> !IsWhitespace(h[i]) && !('A' <= h[i] <= 'Z')
    ensures Sequences.IsSubsequence(h[1..], ToLower(title))
    ensures forall c :: multiset(h[1..])[c] == if IsWhitespace(c) then 0 else multiset(ToLower(title))[c]
  {
    var lower := ToLower(title);
    var kept := RemoveWhitespace(lower);
    ToLowerIsLower(title);
    assert forall i :: 0 <= i < |kept| ==> kept[i] in kept;
    assert forall c :: c in lower ==> !('A' <= c <= 'Z');
    Sequences.FilterIsSubsequence(lower, c => !IsWhitespace(c));
    forall c ensures multiset(kept)[c] == if IsWhitespace(c) then 0 else multiset(lower)[c] {
      Sequences.FilterMultiplicity(lower, c => !IsWhitespace(c), c);
    }
    assert ("@" + kept)[1..] == kept;
    "@" + kept
  }

  /** `parseInt(subscriberCount) || 0`: the parsed number, or 0 where it is `NaN`. */
  function Followers(subscriberCount: string): (n: int)
    ensures !Negative(subscriberCount) ==> n >= 0
  {
    ParseInt(subscriberCount).GetOr(0)
  }

  /** A count the API prints as a decimal numeral is read back exactly. */
  lemma FollowersOfNumeral(n: nat)
    ensures Followers(NatToString(n)) == n
  {
    ParseIntOfNatToString(n);
  }

  /**
   * A count that is empty or blank, or whose first character after the leading whitespace
   * and an optional sign is not a digit, reads as 0.
   */
  lemma FollowersWithoutDigits(s: string)
    requires Unsigned(s) == "" || !('0' <= Unsigned(s)[0] <= '9')
    ensures Followers(s) == 0
  {
  }

  /** `description.substring(0, 200) + '...'`. */
  function Summary(description: string): (d: string)
    ensures 3 <= |d| <= 203 && StartsWith(description, d[..|d| - 3]) && d[|d| - 3..] == "..."
    ensures |description| <= 200 ==> d == description + "..."
    ensures |description| > 200 ==> d == description[..200] + "..."
  {
    var kept := Substring0(description, 200);
    assert (kept + "...")[..|kept|] == kept;
    kept + "..."
  }

  /** The row for the channel at position `index` of the fetched list. */
  function ChannelRow(ch: Channel, index: nat): Influencer
  {
    var country := ChannelCountry(ch);
    Influencer(
      name := ch.title,
      handle := Handle(ch.title),
      followers := Followers(ch.subscriberCount),
      imageUrl := ch.highThumbnailUrl,
      category := CategoryOf(ch.description),
      platform := "youtube",
      country := country,
      region := MapRegion(Some(country)),
      description := Summary(ch.description),
      rank := index + 1)
  }

  /** `convertToInfluencers`: one row per channel, in order, ranked by position. */
  function ConvertToInfluencers(channels: seq<Channel>): (r: seq<Influencer>)
    ensures |r| == |channels| && DenseRanks(r)
    ensures forall i :: 0 <= i < |r| ==>
      && r[i].platform == "youtube"
      && r[i].name == channels[i].title
      && r[i].imageUrl == channels[i].highThumbnailUrl
      && r[i].handle == Handle(channels[i].title)
      && r[i].followers == Followers(channels[i].subscriberCount)
      && r[i].category == CategoryOf(channels[i].description)
      && r[i].country == ChannelCountry(channels[i])
      && r[i].region == MapRegion(Some(r[i].country))
      && r[i].description == Summary(channels[i].description)
  {
    seq(|channels|, i requires 0 <= i < |channels| => ChannelRow(channels[i], i))
  }

  // ---------------------------------------------------------------- Mock batch

  const MockCategories: seq<string> := ["gaming", "education", "entertainment", "music", "howto"]
  const MockRegions: seq<string> := ["North America", "Europe", "Asia", "South America", "Africa", "Oceania"]
  const MockCountries: seq<string> := ["US", "UK", "Canada", "India", "Brazil", "Australia", "Japan", "Germany", "France"]

  /** Mock row `i`, from its draw. */
  function MockRow(i: nat, d: Draw): Influencer
    requires d.category < |MockCategories| && d.region < |MockRegions| && d.country < |MockCountries|
    requires d.followers < FollowerSpread
  {
    var category := MockCategories[d.category];
    var country := MockCountries[d.country];
    Influencer(
      name := Numbered("YouTube Star ", i + 1),
      handle := Numbered("@youtubestar", i + 1),
      followers := MockFollowers(d),
      imageUrl := AvatarUrl(i),
      category := category,
      platform := "youtube",
      country := country,
      region := MockRegions[d.region],
      description := "Top " + category + " creator on YouTube with a large following from " + country + ".",
      rank := i + 1)
  }

  /** `generateMockData`: 100 ranked rows with numbered names and handles and drawn attributes. */
  function GenerateMockData(draws: seq<Draw>): (r: seq<Influencer>)
    requires DrawsFit(draws, |MockCategories|, |MockRegions|, |MockCountries|)
    ensures |r| == BatchSize && DenseRanks(r) && DistinctHandles(r)
    ensures forall i, j :: 0 <= i < j < |r| ==> r[i].name != r[j].name
    ensures forall i :: 0 <= i < |r| ==>
      && r[i].name == Numbered("YouTube Star ", i + 1)
      && r[i].handle == Numbered("@youtubestar", i + 1)
      && r[i].platform == "youtube"
      && 500000 <= r[i].followers <= 100499999
      && r[i].imageUrl == AvatarUrl(i)
      && r[i].description == "Top " + r[i].category + " creator on YouTube with a large following from " + r[i].country + "."
      && r[i].category in MockCategories
      && r[i].region in MockRegions
      && r[i].country in MockCountries
  {
    NumberedInjective("YouTube Star ");
    NumberedInjective("@youtubestar");
    seq(BatchSize, i requires 0 <= i < BatchSize => MockRow(i, draws[i]))
  }

  // ---------------------------------------------------------------- Source selection

  /** The credential query: it failed, found no row, or found a row whose key may be empty. */
  datatype CredentialLookup = LookupError | NoRow | Row(apiKey: Option<string>)

  /**
   * What fetching and converting live data yields once a key is found: the channels, or
   * `FetchThrew` when the fetch or the conversion threw.
   */
  datatype FetchOutcome = Fetched(channels: seq<Channel>) | FetchThrew

  /** The condition under which the live API is tried at all. */
  predicate HasApiKey(cred: CredentialLookup)
  {
    cred.Row? && Present(cred.apiKey)
  }

  datatype Source = MockData | LiveData

  /** Where the batch comes from: live data only when a key is found and the fetch succeeds. */
  function SourceOf(cred: CredentialLookup, fetch: FetchOutcome): Source
  {
    if HasApiKey(cred) && fetch.Fetched? then LiveData else MockData
  }

  /** The rows the refresh writes from that source. */
  function Batch(cred: CredentialLookup, fetch: FetchOutcome, draws: seq<Draw>): seq<Influencer>
    requires DrawsFit(draws, |MockCategories|, |MockRegions|, |MockCountries|)
  {
    if SourceOf(cred, fetch) == LiveData then ConvertToInfluencers(fetch.channels)
    else GenerateMockData(draws)
  }

  /** The branch of `updateYouTubeInfluencers` that assigns `influencers`. */
  method ChooseInfluencers(cred: CredentialLookup, fetch: FetchOutcome, draws: seq<Draw>)
    returns (influencers: seq<Influencer>, source: Source)
    requires DrawsFit(draws, |MockCategories|, |MockRegions|, |MockCountries|)
    ensures source == SourceOf(cred, fetch)
    ensures influencers == Batch(cred, fetch, draws)
  {
    if !HasApiKey(cred) {
      influencers, source := GenerateMockData(draws), MockData;
    } else {
      match fetch
      case Fetched(channels) =>
        influencers, source := ConvertToInfluencers(channels), LiveData;
      case FetchThrew =>
        influencers, source := GenerateMockData(draws), MockData;
    }
  }

  /** Only a found key together with a successful fetch yields live rows. */
  lemma LiveOnlyOnSuccess(cred: CredentialLookup, fetch: FetchOutcome)
    ensures SourceOf(cred, fetch) == LiveData <==> HasApiKey(cred) && fetch.Fetched?
    ensures (cred.LookupError? || cred.NoRow? || cred == Row(None) || cred == Row(Some(""))) ==>
              SourceOf(cred, fetch) == MockData
  {
  }

  /** Every batch is ranked 1..N; a mock batch also has 100 rows with distinct handles. */
  lemma BatchShape(cred: CredentialLookup, fetch: FetchOutcome, draws: seq<Draw>)
    requires DrawsFit(draws, |MockCategories|, |MockRegions|, |MockCountries|)
    ensures DenseRanks(Batch(cred, fetch, draws))
    ensures forall row :: row in Batch(cred, fetch, draws) ==> row.platform == "youtube"
    ensures SourceOf(cred, fetch) == MockData ==>
              |Batch(cred, fetch, draws)| == 100 && DistinctHandles(Batch(cred, fetch, draws))
  {
  }

  /** The two store steps that can fail after the batch is chosen. */
  datatype Step = DeleteStep | InsertStep

  /** The function's report: the number of rows written, or the step whose error was rethrown. */
  datatype UpdateResult = Updated(count: nat) | UpdateFailed(step: Step)

  /**
   * `updateYouTubeInfluencers`: choose the batch, delete the stored YouTube rows, then insert
   * the batch. `deleteFails` and `insertFails` are the store's answers to the two calls;
   * `sent` is the rows passed to `insert`, whether or not it stored them.
   */
  method UpdateYouTubeInfluencers(cred: CredentialLookup, fetch: FetchOutcome, draws: seq<Draw>,
                                  deleteFails: bool, insertFails: bool)
    returns (result: UpdateResult, sent: seq<Influencer>)
    requires DrawsFit(draws, |MockCategories|, |MockRegions|, |MockCountries|)
    ensures deleteFails ==> result == UpdateFailed(DeleteStep) && sent == []
    ensures !deleteFails ==> sent == Batch(cred, fetch, draws)
    ensures !deleteFails && insertFails ==> result == UpdateFailed(InsertStep)
    ensures !deleteFails && !insertFails ==> result == Updated(|sent|)
  {
    var influencers, source := ChooseInfluencers(cred, fetch, draws);
    if deleteFails {
      return UpdateFailed(DeleteStep), [];
    }
    sent := influencers;
    if insertFails {
      return UpdateFailed(InsertStep), sent;
    }
    result := Updated(|influencers|);
  }
}
