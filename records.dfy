/**
 * The influencer row both serverless functions and the seeding page write to the record
 * store (name, handle, followers, image_url, category, platform, country, region,
 * description, rank; the `last_updated` timestamp is left out), and the injected
 * randomness the two mock generators draw for each row.
 */
module Records {
  import opened Strings

  datatype Influencer = Influencer(
    name: string,
    handle: string,
    followers: int,
    imageUrl: string,
    category: string,
    platform: string,
    country: string,
    region: string,
    description: string,
    rank: int)

  /**
   * The four `Math.floor(Math.random() * n)` draws a mock row makes: indices into the
   * category, region and country lists, and the offset added to the follower floor.
   */
  datatype Draw = Draw(category: nat, region: nat, country: nat, followers: nat)

  /** `Array.from({ length: 100 }, ...)`: every mock batch has this many rows. */
  const BatchSize: nat := 100
  /** The constant added to the random follower offset. */
  const FollowerFloor: nat := 500000
  /** The factor `Math.random()` is scaled by for the follower offset. */
  const FollowerSpread: nat := 100000000

  /** One draw per row, each index below its list's length and each offset below the spread. */
  predicate DrawsFit(draws: seq<Draw>, categories: nat, regions: nat, countries: nat)
  {
    && |draws| == BatchSize
    && forall i :: 0 <= i < |draws| ==>
         && draws[i].category < categories
         && draws[i].region < regions
         && draws[i].country < countries
         && draws[i].followers < FollowerSpread
  }

  /** `Math.floor(Math.random() * 100000000) + 500000`. */
  function MockFollowers(d: Draw): (f: int)
    requires d.followers < FollowerSpread
    ensures 500000 <= f <= 100499999
  {
    FollowerFloor + d.followers
  }

  /** The avatar number `(i % 70) + 1` of row `i`. */
  function AvatarIndex(i: nat): (k: nat)
    ensures 1 <= k <= 70
  {
    i % 70 + 1
  }

  function AvatarUrl(i: nat): string
  {
    "https://i.pravatar.cc/300?img=" + NatToString(AvatarIndex(i))
  }

  /** Row `i` has rank `i + 1`: ranks are 1..N in row order. */
  predicate DenseRanks(rows: seq<Influencer>)
  {
    forall i :: 0 <= i < |rows| ==> rows[i].rank == i + 1
  }

  /** No two rows share a handle. */
  predicate DistinctHandles(rows: seq<Influencer>)
  {
    forall i, j :: 0 <= i < j < |rows| ==> rows[i].handle != rows[j].handle
  }

  /** No two rows share the `(platform, handle)` key the store upserts on. */
  predicate DistinctKeys(rows: seq<Influencer>)
  {
    forall i, j :: 0 <= i < j < |rows| ==>
      rows[i].platform != rows[j].platform || rows[i].handle != rows[j].handle
  }
}
