/**
 * The multi-platform refresh function (supabase/functions/update-influencers/index.ts):
 * the per-platform category tables, the mock batch generator and the loop that sends
 * every platform's batch to the store in turn, logging and surviving a failure of any one.
 * The store's answer to each upsert is a parameter.
 */
module UpdateInfluencers {
  import opened Strings
  import opened Records

  /** An entry of `platformAPIs`: its key, the name its fetch log uses, and its category list. */
  datatype PlatformApi = PlatformApi(platform: string, displayName: string, categories: seq<string>)

  /** `platformAPIs`, in the order `Object.keys` lists it. */
  const PlatformApis: seq<PlatformApi> := [
    PlatformApi("instagram", "Instagram", ["entertainment", "sports", "fashion", "technology", "music"]),
    PlatformApi("twitter", "Twitter", ["politics", "news", "technology", "sports", "entertainment"]),
    PlatformApi("youtube", "YouTube", ["gaming", "education", "entertainment", "music", "howto"]),
    PlatformApi("tiktok", "TikTok", ["dance", "comedy", "lifestyle", "food", "fitness"]),
    PlatformApi("facebook", "Facebook", ["business", "news", "entertainment", "community", "education"])
  ]

  const Regions: seq<string> := ["North America", "Europe", "Asia", "South America", "Africa", "Oceania"]
  const Countries: seq<string> :=
    ["USA", "UK", "China", "India", "Brazil", "Australia", "Japan", "Germany", "France", "Canada"]

  /** The five keys are pairwise different, and each platform has five categories. */
  lemma PlatformsDistinct()
    ensures forall p, q :: 0 <= p < q < |PlatformApis| ==> PlatformApis[p].platform != PlatformApis[q].platform
    ensures forall p :: 0 <= p < |PlatformApis| ==> |PlatformApis[p].categories| == 5
  {
  }

  /** `s.charAt(0).toUpperCase() + s.slice(1)`. */
  function Capitalise(s: string): (r: string)
    ensures |r| == |s|
    ensures s != "" ==> r[0] == UpperChar(s[0]) && r[1..] == s[1..]
  {
    if s == "" then "" else [UpperChar(s[0])] + s[1..]
  }

  function NamePrefix(platform: string): string
  {
    Capitalise(platform) + " Star "
  }

  function HandlePrefix(platform: string): string
  {
    "@" + ToLower(platform) + "user"
  }

  /** Mock row `i` of `platform`, from its draw. */
  function MockRow(platform: string, categories: seq<string>, i: nat, d: Draw): Influencer
    requires d.category < |categories| && d.region < |Regions| && d.country < |Countries|
    requires d.followers < FollowerSpread
  {
    var category := categories[d.category];
    var country := Countries[d.country];
    Influencer(
      name := Numbered(NamePrefix(platform), i + 1),
      handle := Numbered(HandlePrefix(platform), i + 1),
      followers := MockFollowers(d),
      imageUrl := AvatarUrl(i),
      category := category,
      platform := platform,
      country := country,
      region := Regions[d.region],
      description := "Top " + category + " creator on " + platform + " with a large following from " + country + ".",
      rank := i + 1)
  }

  /**
   * `generateMockData(platform, categories)`: 100 ranked rows whose names and handles are
   * numbered from 1, so that no two rows of the batch share the `(platform, handle)` key.
   */
  function GenerateMockData(platform: string, categories: seq<string>, draws: seq<Draw>): (r: seq<Influencer>)
    requires DrawsFit(draws, |categories|, |Regions|, |Countries|)
    ensures |r| == BatchSize && DenseRanks(r) && DistinctHandles(r) && DistinctKeys(r)
    ensures forall i, j :: 0 <= i < j < |r| ==> r[i].name != r[j].name
    ensures forall i :: 0 <= i < |r| ==>
      && r[i].name == Numbered(NamePrefix(platform), i + 1)
      && r[i].handle == Numbered(HandlePrefix(platform), i + 1)
      && r[i].platform == platform
      && 500000 <= r[i].followers <= 100499999
      && r[i].imageUrl == AvatarUrl(i)
      && r[i].description == "Top " + r[i].category + " creator on " + platform + " with a large following from " + r[i].country + "."
      && r[i].category in categories
      && r[i].region in Regions
      && r[i].country in Countries
  {
    NumberedInjective(NamePrefix(platform));
    NumberedInjective(HandlePrefix(platform));
    seq(BatchSize, i requires 0 <= i < BatchSize => MockRow(platform, categories, i, draws[i]))
  }

  /** What `api.fetchTopInfluencers()` resolves to: the mock batch for that entry's platform and categories. */
  function FetchTopInfluencers(api: PlatformApi, draws: seq<Draw>): (r: seq<Influencer>)
    requires DrawsFit(draws, |api.categories|, |Regions|, |Countries|)
    ensures |r| == BatchSize && DistinctKeys(r)
    ensures forall row :: row in r ==> row.platform == api.platform && row.category in api.categories
  {
    GenerateMockData(api.platform, api.categories, draws)
  }

  /** Rows of two different platforms never share an upsert key. */
  lemma BatchesKeysDisjoint(p: nat, q: nat, dp: seq<Draw>, dq: seq<Draw>)
    requires p < |PlatformApis| && q < |PlatformApis| && p != q
    requires DrawsFit(dp, |PlatformApis[p].categories|, |Regions|, |Countries|)
    requires DrawsFit(dq, |PlatformApis[q].categories|, |Regions|, |Countries|)
    ensures forall a, b :: a in FetchTopInfluencers(PlatformApis[p], dp) && b in FetchTopInfluencers(PlatformApis[q], dq) ==>
              a.platform != b.platform
  {
    PlatformsDistinct();
    var bp, bq := FetchTopInfluencers(PlatformApis[p], dp), FetchTopInfluencers(PlatformApis[q], dq);
    forall a, b | a in bp && b in bq ensures a.platform != b.platform {
      var i :| 0 <= i < |bp| && bp[i] == a;
      var j :| 0 <= j < |bq| && bq[j] == b;
    }
  }

  // ---------------------------------------------------------------- The refresh loop

  /** The store's answer to one upsert: success, a returned error, or a thrown one. */
  datatype UpsertOutcome = Stored | StoreError | Threw

  /** The console lines the refresh writes. */
  datatype LogEntry =
    | Starting
    | Processing(platform: string)
    | Fetching(displayName: string)
    | Succeeded(count: nat, platform: string)
    | ErrorUpdating(platform: string)
    | FailedToUpdate(platform: string)
    | Completed

  /** The line that reports the upsert of `count` rows for `platform`. */
  function Report(platform: string, count: nat, outcome: UpsertOutcome): LogEntry
  {
    match outcome
    case Stored => Succeeded(count, platform)
    case StoreError => ErrorUpdating(platform)
    case Threw => FailedToUpdate(platform)
  }

  /** The three lines one iteration writes. */
  function PlatformLog(api: PlatformApi, outcome: UpsertOutcome): seq<LogEntry>
  {
    [Processing(api.platform), Fetching(api.displayName), Report(api.platform, BatchSize, outcome)]
  }

  /** The lines the first `n` iterations write. */
  function RefreshLog(outcomes: seq<UpsertOutcome>, n: nat): (r: seq<LogEntry>)
    requires n <= |outcomes| && n <= |PlatformApis|
    ensures |r| == 3 * n
  {
    if n == 0 then [] else RefreshLog(outcomes, n - 1) + PlatformLog(PlatformApis[n - 1], outcomes[n - 1])
  }

  /** Iteration `p` writes lines `3p..3p+2`, whatever the other platforms' outcomes. */
  lemma {:induction false} RefreshLogAt(outcomes: seq<UpsertOutcome>, n: nat, p: nat)
    requires n <= |outcomes| && n <= |PlatformApis| && p < n
    ensures RefreshLog(outcomes, n)[3 * p..3 * p + 3] == PlatformLog(PlatformApis[p], outcomes[p])
  {
    var before := RefreshLog(outcomes, n - 1);
    var last := PlatformLog(PlatformApis[n - 1], outcomes[n - 1]);
    assert RefreshLog(outcomes, n) == before + last;
    if p < n - 1 {
      RefreshLogAt(outcomes, n - 1, p);
      assert (before + last)[3 * p..3 * p + 3] == before[3 * p..3 * p + 3];
    } else {
      assert (before + last)[3 * p..3 * p + 3] == last;
    }
  }

  /** The batches the first `n` iterations send, in platform order. */
  function BatchesOf(draws: seq<seq<Draw>>, n: nat): seq<seq<Influencer>>
    requires n <= |draws| && n <= |PlatformApis|
    requires forall p :: 0 <= p < n ==> DrawsFit(draws[p], |PlatformApis[p].categories|, |Regions|, |Countries|)
  {
    seq(n, p requires 0 <= p < n => FetchTopInfluencers(PlatformApis[p], draws[p]))
  }

  /** Draws that fit every platform's lists, one batch's worth per platform. */
  predicate DrawsFitAll(draws: seq<seq<Draw>>)
  {
    && |draws| == |PlatformApis|
    && forall p :: 0 <= p < |PlatformApis| ==> DrawsFit(draws[p], |PlatformApis[p].categories|, |Regions|, |Countries|)
  }

  /**
   * `updateAllPlatforms`: for each key of `platformAPIs` in order, fetch its batch and upsert it;
   * `outcomes[p]` is the store's answer for platform `p`. Returns the batches sent and the log.
   */
  method UpdateAllPlatforms(draws: seq<seq<Draw>>, outcomes: seq<UpsertOutcome>)
    returns (sent: seq<seq<Influencer>>, log: seq<LogEntry>)
    requires DrawsFitAll(draws) && |outcomes| == |PlatformApis|
    ensures sent == BatchesOf(draws, |PlatformApis|)
    ensures log == [Starting] + RefreshLog(outcomes, |PlatformApis|) + [Completed]
  {
    log := [Starting];
    sent := [];
    var p := 0;
    while p < |PlatformApis|
      invariant 0 <= p <= |PlatformApis|
      invariant sent == BatchesOf(draws, p)
      invariant log == [Starting] + RefreshLog(outcomes, p)
      decreases |PlatformApis| - p
    {
      var api := PlatformApis[p];
      log := log + [Processing(api.platform), Fetching(api.displayName)];
      var influencers := FetchTopInfluencers(api, draws[p]);
      sent := sent + [influencers];
      match outcomes[p] {
        case Stored =>
          log := log + [Succeeded(|influencers|, api.platform)];
        case StoreError =>
          log := log + [ErrorUpdating(api.platform)];
        case Threw =>
          log := log + [FailedToUpdate(api.platform)];
      }
      p := p + 1;
    }
    log := log + [Completed];
  }

  /**
   * Every platform is attempted, in order, and reported according to its own outcome alone:
   * an error or a throw for one platform neither stops nor alters the lines of the others.
   */
  lemma EveryPlatformReported(outcomes: seq<UpsertOutcome>, p: nat)
    requires |outcomes| == |PlatformApis| && p < |PlatformApis|
    ensures var log := [Starting] + RefreshLog(outcomes, |PlatformApis|) + [Completed];
      && |log| == 17
      && log[3 * p + 1] == Processing(PlatformApis[p].platform)
      && log[3 * p + 2] == Fetching(PlatformApis[p].displayName)
      && log[3 * p + 3] == Report(PlatformApis[p].platform, 100, outcomes[p])
  {
    RefreshLogAt(outcomes, |PlatformApis|, p);
    var body := RefreshLog(outcomes, |PlatformApis|);
    assert body[3 * p..3 * p + 3][0] == body[3 * p];
    assert body[3 * p..3 * p + 3][1] == body[3 * p + 1];
    assert body[3 * p..3 * p + 3][2] == body[3 * p + 2];
  }

  /** Two runs whose stores answer platform `p` alike log the same lines for `p`. */
  lemma FailureIsolated(o1: seq<UpsertOutcome>, o2: seq<UpsertOutcome>, p: nat)
    requires |o1| == |PlatformApis| && |o2| == |PlatformApis| && p < |PlatformApis|
    requires o1[p] == o2[p]
    ensures RefreshLog(o1, |PlatformApis|)[3 * p..3 * p + 3] == RefreshLog(o2, |PlatformApis|)[3 * p..3 * p + 3]
  {
    RefreshLogAt(o1, |PlatformApis|, p);
    RefreshLogAt(o2, |PlatformApis|, p);
  }

  /** Across every batch of one run, no two rows share the `(platform, handle)` upsert key. */
  lemma SentKeysDistinct(draws: seq<seq<Draw>>, p: nat, q: nat, i: nat, j: nat)
    requires DrawsFitAll(draws)
    requires p < |PlatformApis| && q < |PlatformApis| && i < BatchSize && j < BatchSize
    requires (p, i) != (q, j)
    ensures var b := BatchesOf(draws, |PlatformApis|);
      b[p][i].platform != b[q][j].platform || b[p][i].handle != b[q][j].handle
  {
    var b: seq<seq<Influencer>> := BatchesOf(draws, |PlatformApis|);
    if p != q {
      BatchesKeysDisjoint(p, q, draws[p], draws[q]);
      assert b[p][i] in b[p] && b[q][j] in b[q];
    } else if i < j {
      assert b[p][i].handle != b[p][j].handle;
    } else {
      assert b[p][j].handle != b[p][i].handle;
    }
  }
}
