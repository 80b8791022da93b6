# Famepedia core, modelled in Dafny

Famepedia is a directory of social-media influencers. The React front end lists people
from a static data file, filters them by category and platform, and searches them by free
text. Two serverless functions refresh the record store: one for YouTube (live API data
or a mock batch) and one for five platforms (mock batches only). The home page seeds the
store from the static data when the store looks empty.

This project models the logic of that system on values and proves its properties:

- `PersonGrid` (person_grid.dfy): the listing filter, with `'all'` wildcards for category and platform.
- `SearchDialog` (search_dialog.dfy): the blank-query guard and the case-insensitive four-field substring search.
- `People` (people.dfy): the person record, the derived country and region option lists, and the suffix `formatNumber` picks.
- `YouTubeApi` (youtube_api.dfy): `mapRegion` and `determineCategory` (as a loop method proved against a first-match function), the channel-to-row mapping, the mock batch, the live-or-mock source choice, and the delete-then-insert steps.
- `UpdateInfluencers` (update_influencers.dfy): the per-platform category tables, the mock batch generator and the refresh loop over all platforms, which logs each result and carries on after a failure.
- `IndexPage` (index_page.dfy): the seeding row mapping and the test that decides whether to seed.
- Support modules:
  - `Records` holds the influencer row shared by the writers, and the injected random draws.
  - `Strings` holds the JavaScript string built-ins the code relies on: `trim` and the `\s` class, ASCII `toLowerCase`, `includes`, decimal printing, `parseInt`, and the character order `sort` uses.
  - `Sequences` holds `Array.filter` and `Array.from(new Set(...))`.
  - `Wrappers` holds `Option`.

Randomness is a parameter. Each mock row takes a `Draw`, which holds the three list
indices and the follower offset that `Math.random()` would pick, bounded by the list
lengths. The store is not modelled as a database. Each call to it is a parameter: the
count query's answer, the credential lookup's result, whether the live fetch threw,
whether delete or insert failed, and each platform's upsert outcome.

Three facts about the code that a reader might not expect:

- The home page keeps a country and a region selection, but the listing ignores them: `PersonGrid` has only category and platform props. `PersonGrid.CountryAndRegionDoNotNarrow` shows this.
- A mock row's region is drawn independently of its country, in both functions. So it need not be the region `mapRegion` gives that country.
- The YouTube mock uses the country "UK", but the region table's code for Britain is "GB".

## Model

| member | source | states |
|---|---|---|
| PersonGrid.FilterPeople | src/components/PersonGrid.tsx:21-25 | a person is kept iff the category selector is `'all'` or equals its category, and the same for platform; the result is an order-preserving subsequence of the input |
| PersonGrid.FilterPeopleHonoursSelectors | src/components/PersonGrid.tsx:22-23 | every kept person has the selected category when that selector is not `'all'`, and the selected platform when that selector is not `'all'` |
| PersonGrid.FilterPeopleComplete | src/components/PersonGrid.tsx:21-25 | each person occurs in the result exactly as often as in the input when it matches both selectors, and never otherwise |
| PersonGrid.FilterPeopleAllAll | src/components/PersonGrid.tsx:22-24 | with both selectors `'all'` the result is the input list |
| PersonGrid.FilterPeopleIdempotent | src/components/PersonGrid.tsx:21-25 | filtering the result again with the same selectors changes nothing |
| PersonGrid.HomeListing | src/components/PersonGrid.tsx:6-12 | the listing given country and region selectors keeps exactly the people that match category and platform, in their original order, so country and region play no part |
| PersonGrid.HomeListingIgnoresCountryAndRegion | src/components/PersonGrid.tsx:6-12 | any two choices of country and region give the same listing |
| PersonGrid.ExampleByCategory | src/components/PersonGrid.tsx:22 | a sports person is kept under `sports` and dropped under `politics` |
| PersonGrid.CountryAndRegionDoNotNarrow | src/components/PersonGrid.tsx:6-12 | selecting "USA" and "North America" still lists a person from Portugal in Europe |
| SearchDialog.Search | src/components/SearchDialog.tsx:20-33 | a blank or whitespace-only query gives no results; otherwise a person is in the result iff the lower-cased query occurs in its lower-cased name, category, country or platform; the result is a subsequence of the input |
| SearchDialog.SearchComplete | src/components/SearchDialog.tsx:27-33 | for a non-blank query, each person occurs in the result exactly as often as in the input when it matches, and never otherwise |
| SearchDialog.SearchFindsPlatform | src/components/SearchDialog.tsx:32 | searching for a person's (non-blank) platform finds that person |
| SearchDialog.SearchCaseInsensitive | src/components/SearchDialog.tsx:26 | two queries with the same lower-casing give the same results |
| SearchDialog.SearchMatchesUntrimmedQuery | src/components/SearchDialog.tsx:21-26 | only the emptiness test trims: "nike" finds a person named Nike while "nike " does not |
| Strings.TrimEmptyIffBlank | src/components/SearchDialog.tsx:21 | `trim()` yields "" iff every character is JavaScript whitespace |
| Strings.ParseInt | supabase/functions/youtube-api/index.ts:173 | `parseInt` is `NaN` when no digit follows the leading whitespace and optional sign, a number when a decimal digit (other than a `0x` prefix) follows, and negative only after a minus sign |
| Strings.ParseIntOfIntToString | src/data/people.ts:245 | the decimal text of any integer parses back to it |
| People.DistinctSorted | src/data/people.ts:223-224 | `Array.from(new Set(values)).sort()` is strictly ascending, has no repeated value, and holds exactly the input's values |
| Strings.Sort | src/data/people.ts:224 | `sort()` returns a permutation of its input |
| Strings.SortSorted | src/data/people.ts:224 | `sort()` returns its input in ascending order |
| People.Countries | src/data/people.ts:221-226 | the list starts with `{all, "All Countries"}`; the rest holds each country of the people exactly once, strictly ascending, each labelled by its own value |
| People.Regions | src/data/people.ts:228-233 | the same for regions, starting with `{all, "All Regions"}` |
| People.FormatNumber | src/data/people.ts:235-246 | `'B'` iff n ≥ 10^9, `'M'` iff 10^6 ≤ n < 10^9, `'K'` iff 10^3 ≤ n < 10^6, and plain text iff n < 1000, the text being `IntToString(n)`, which is digits without a leading zero after an optional minus sign, and which parses back to n |
| People.FormatNumberMonotone | src/data/people.ts:236-245 | a larger count never gets a smaller divisor |
| YouTubeApi.MapRegion | supabase/functions/youtube-api/index.ts:61-87 | the result is one of the six regions or "Unknown"; a listed code gets its region; an absent, empty or unlisted country gets "Unknown" |
| YouTubeApi.MapRegionOfUnknown | supabase/functions/youtube-api/index.ts:86 | the fallback country "Unknown" maps to region "Unknown" |
| YouTubeApi.FirstCategory | supabase/functions/youtube-api/index.ts:106-114 | the first-match search returns the default or a category of the table |
| YouTubeApi.FirstCategoryAt | supabase/functions/youtube-api/index.ts:106-112 | when entry t is the first whose keyword list has a hit, its category is returned |
| YouTubeApi.FirstCategoryDefault | supabase/functions/youtube-api/index.ts:114 | when no entry has a hit, "entertainment" is returned |
| YouTubeApi.CategoryOf | supabase/functions/youtube-api/index.ts:90-115 | the guessed category is always one of the ten table keys |
| YouTubeApi.DetermineCategory | supabase/functions/youtube-api/index.ts:90-115 | the nested loop with early return computes the first-match category of the lower-cased description |
| YouTubeApi.TutorialIsEducation | supabase/functions/youtube-api/index.ts:94-96 | "tutorial" is listed under education and howto; education, which comes first, wins |
| YouTubeApi.VlogIsEntertainment | supabase/functions/youtube-api/index.ts:95-101 | "vlog" is listed under entertainment and travel; entertainment wins |
| YouTubeApi.ChannelCountry | supabase/functions/youtube-api/index.ts:168 | the country is the branding country if present and non-empty, else the snippet country, else "Unknown" |
| YouTubeApi.Handle | supabase/functions/youtube-api/index.ts:172 | the handle is '@' followed by the lower-cased title in order with its whitespace removed: a subsequence of the lower-cased title holding every non-whitespace character as often as the title does and no whitespace, and no upper-case letter |
| YouTubeApi.Followers | supabase/functions/youtube-api/index.ts:173 | the parsed count, or 0 where `parseInt` gives `NaN`, is never negative unless the count carries a minus sign |
| YouTubeApi.FollowersOfNumeral | supabase/functions/youtube-api/index.ts:173 | a subscriber count printed in decimal is read back exactly |
| YouTubeApi.FollowersWithoutDigits | supabase/functions/youtube-api/index.ts:173 | an empty or blank count, or one whose first character after whitespace and sign is not a digit, becomes 0 |
| YouTubeApi.Summary | supabase/functions/youtube-api/index.ts:179 | the description is the first 200 characters of the original followed by "..."; a shorter description is kept whole |
| YouTubeApi.ConvertToInfluencers | supabase/functions/youtube-api/index.ts:166-183 | one row per channel, ranks 1..N in order, platform "youtube"; name and image URL copied; handle, followers, category, country, region and description derived from the channel by the members above |
| YouTubeApi.GenerateMockData | supabase/functions/youtube-api/index.ts:186-211 | 100 rows ranked 1..100 with distinct names "YouTube Star n" and distinct handles "@youtubestarn", followers in [500000, 100499999], image URL `https://i.pravatar.cc/300?img=<(i mod 70) + 1>` for row index i, description "Top <category> creator on YouTube with a large following from <country>.", category, region and country from their lists |
| YouTubeApi.ChooseInfluencers | supabase/functions/youtube-api/index.ts:225-240 | the batch is the converted channels when a key is found and the fetch succeeds, and the mock batch otherwise |
| YouTubeApi.LiveOnlyOnSuccess | supabase/functions/youtube-api/index.ts:227-239 | live data iff a key is found and the fetch succeeds; a lookup error, no row, or a missing or empty key always gives mock data |
| YouTubeApi.BatchShape | supabase/functions/youtube-api/index.ts:227-240 | either batch is ranked 1..N and all "youtube"; a mock batch has 100 rows with distinct handles |
| YouTubeApi.UpdateYouTubeInfluencers | supabase/functions/youtube-api/index.ts:214-270 | a failed delete rethrows and inserts nothing; otherwise the chosen batch is inserted, and the result is the insert's failure or the batch's row count |
| Records.MockFollowers | supabase/functions/update-influencers/index.ts:104 | mock follower counts lie in [500000, 100499999] |
| Records.AvatarIndex | supabase/functions/update-influencers/index.ts:105 | the avatar number `(i % 70) + 1` lies in 1..70 |
| UpdateInfluencers.PlatformsDistinct | supabase/functions/update-influencers/index.ts:43-89 | the five platform keys are pairwise different and each has five categories |
| UpdateInfluencers.GenerateMockData | supabase/functions/update-influencers/index.ts:92-114 | 100 rows ranked 1..100; names `Capitalised Star n` and handles `@<lower>usern` numbered from 1 and pairwise distinct, so no two rows share the `(platform, handle)` key; platform equals the argument; followers in [500000, 100499999]; image URL `https://i.pravatar.cc/300?img=<(i mod 70) + 1>` for row index i; description "Top <category> creator on <platform> with a large following from <country>."; category from the given list, region from the 6 and country from the 10 listed |
| UpdateInfluencers.FetchTopInfluencers | supabase/functions/update-influencers/index.ts:43-89 | each entry's fetch yields 100 rows of its own platform with distinct upsert keys, each with a category from that entry's list |
| UpdateInfluencers.BatchesKeysDisjoint | supabase/functions/update-influencers/index.ts:119-135 | rows of two different platforms never share the upsert key |
| UpdateInfluencers.UpdateAllPlatforms | supabase/functions/update-influencers/index.ts:117-149 | the loop sends every platform's mock batch, in key order, and writes the start line, three lines per platform and the completion line |
| UpdateInfluencers.RefreshLogAt | supabase/functions/update-influencers/index.ts:121-146 | iteration p writes lines 3p..3p+2, whatever the other iterations did |
| UpdateInfluencers.EveryPlatformReported | supabase/functions/update-influencers/index.ts:121-146 | every platform is processed and reported as updated (with 100 rows), as a returned error, or as a thrown failure, according to its own upsert outcome |
| UpdateInfluencers.FailureIsolated | supabase/functions/update-influencers/index.ts:138-145 | the lines for a platform depend only on that platform's outcome, so an error elsewhere neither stops nor changes them |
| UpdateInfluencers.SentKeysDistinct | supabase/functions/update-influencers/index.ts:131-135 | across all batches of one run, no two rows share the `(platform, handle)` key |
| IndexPage.InitialRows | src/pages/Index.tsx:55-67 | one row per static person, in order, ranked 1..N, with every field copied and `imageUrl` as the row's image URL |
| IndexPage.InitialRowsRoundTrip | src/pages/Index.tsx:55-65 | each person can be read back from its row together with its id |
| IndexPage.InitialRowsHandles | src/pages/Index.tsx:57 | the rows' handles are distinct iff the people's are |
| IndexPage.ShouldInitialize | src/pages/Index.tsx:32-33 | seeding requires a logged-in user and an answered query, and without an error a count of exactly 0 |
| IndexPage.ShouldInitializeCases | src/pages/Index.tsx:32-36 | seeding happens only with a logged-in user; after an error or a count of 0 it does; a null count without an error, a non-zero count, or a thrown query never seeds |

## Left out

- Rendering, styling, animation, loading delays, toasts and React state: these are presentation and timing, not logic.
- The network, `fetchRealYouTubeData`, the store's calls, `Deno.serve`, CORS, environment reads and auth headers. These are I/O. The model keeps only each call's outcome, as a parameter.
- `Math.random()`: replaced by injected `Draw` values bounded by the list lengths.
- `new Date().toISOString()` timestamps (`last_updated`): clock reads.
- The `console` lines of the YouTube function: only the multi-platform refresh's log is modelled, because that log is how failure isolation shows.
- The store's contents: which rows are stored after each call, including the effect of an upsert that threw, are not modelled.
- People.FormatNumber: states the branch, the suffix and the plain text, but not the digits `toFixed(1)` prints for the quotient (that depends on floating-point division and rounding).
- Strings.ToLower: maps only ASCII letters, whereas JavaScript's `toLowerCase` maps all of Unicode.
- Strings.ParseInt: reads arbitrarily large numbers exactly, whereas JavaScript loses precision beyond 2^53.
- Strings.Contains and Strings.Less: work on the string as a sequence of characters, whereas JavaScript compares UTF-16 code units. The two differ only for characters outside the Basic Multilingual Plane.
- Strings.Substring0: counts characters, whereas `substring(0, 200)` counts UTF-16 code units and can split a surrogate pair.
- Strings.UpperChar and UpdateInfluencers.Capitalise: map only ASCII letters, whereas `toUpperCase` maps all of Unicode.
- People.FormatNumber: takes an integer, whereas the source takes a JavaScript `number`, which may have a fraction or be `NaN`; beyond 2^53 in magnitude `toString` prints rounded digits, and from 10^21 exponent notation, where the model prints every digit (only counts below -2^53 reach the plain branch).
- A channel missing a field that `convertToInfluencers` reads, such as `thumbnails.high`: the conversion then throws and the source falls back to mock data. Every modelled `Channel` has all its fields, so this case appears only as `FetchThrew`, "the fetch or the conversion threw".
- YouTubeApi.MapRegion: treats `regionMap` as a plain map, so it ignores keys such as "constructor" that a JavaScript object inherits from its prototype.
- UpdateInfluencers.GenerateMockData: requires a non-empty category list. With an empty list, JavaScript would yield `undefined` categories; every table in the source has five entries.
- The promise that the multi-platform function always answers success: this is part of the `Deno.serve` handler, which is left out.
