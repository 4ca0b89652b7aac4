/** `GET /api/ads/list`: a company's advertisements with summary statistics,
    behind three gates (signed in, role "company", a company profile). The
    session, the two profile reads and the ads read are inputs. */
module AdsList {
  import opened Wrappers
  import opened Lists

  /** The columns of an `advertisements` row the statistics read; the two
      counters are nullable. */
  datatype Ad = Ad(id: string, status: string, impressions: Option<int>, clicks: Option<int>)

  datatype Stats = Stats(totalAds: nat, activeAds: nat, totalImpressions: int, totalClicks: int)

  datatype Thrown = Thrown(message: string)

  datatype AdsResponse =
    | Listed(ads: seq<Ad>, stats: Stats)
    | Unauthorized
    | Forbidden
    | ProfileNotFound
    | ServerError

  function Status(r: AdsResponse): int
  {
    match r
    case Listed(_, _) => 200
    case Unauthorized => 401
    case Forbidden => 403
    case ProfileNotFound => 404
    case ServerError => 500
  }

  function Error(r: AdsResponse): string
    requires !r.Listed?
  {
    match r
    case Unauthorized => "Unauthorized"
    case Forbidden => "Only companies can view ads"
    case ProfileNotFound => "Company profile not found"
    case ServerError => "Failed to fetch ads"
  }

  predicate IsActive(ad: Ad)
  {
    ad.status == "active"
  }

  /** `ads.filter(ad => ad.status === "active")`. */
  function ActiveAds(ads: seq<Ad>): seq<Ad>
  {
    Filter(ads, IsActive)
  }

  /** `ad.impressions || 0`: `null` and 0 both count as 0. */
  function Impressions(ad: Ad): int
  {
    ad.impressions.GetOr(0)
  }

  function Clicks(ad: Ad): int
  {
    ad.clicks.GetOr(0)
  }

  /** `ads.reduce((sum, ad) => sum + (ad.impressions || 0), 0)`, a left fold. */
  function SumImpressions(ads: seq<Ad>): int
  {
    if ads == [] then 0 else SumImpressions(ads[..|ads| - 1]) + Impressions(ads[|ads| - 1])
  }

  function SumClicks(ads: seq<Ad>): int
  {
    if ads == [] then 0 else SumClicks(ads[..|ads| - 1]) + Clicks(ads[|ads| - 1])
  }

  /** The `stats` object. */
  function ComputeStats(ads: seq<Ad>): Stats
  {
    Stats(|ads|, |ActiveAds(ads)|, SumImpressions(ads), SumClicks(ads))
  }

  function AddStats(a: Stats, b: Stats): Stats
  {
    Stats(a.totalAds + b.totalAds, a.activeAds + b.activeAds,
          a.totalImpressions + b.totalImpressions, a.totalClicks + b.totalClicks)
  }

  /** The route. `user` is the session's user id; `role` is the `users` row of
      that user as `getUserProfile` reads it (a failed read is thrown);
      `company` the company-profile lookup (an error and no row are alike);
      `ads` the company's ads. */
  function ListAds(user: Option<string>, role: Result<Option<string>, Thrown>,
                   company: Result<Option<string>, Thrown>, ads: Result<seq<Ad>, Thrown>): (r: AdsResponse)
    ensures r == Unauthorized <==> user.None?
    ensures r == Forbidden <==> user.Some? && role.Ok? && role.value != Some("company")
    ensures r == ProfileNotFound <==> user.Some? && role == Ok(Some("company")) && (company.Err? || company.value.None?)
    ensures r.Listed? <==> user.Some? && role == Ok(Some("company")) && company.Ok? && company.value.Some? && ads.Ok?
    ensures r.Listed? ==> r.ads == ads.value && r.stats == ComputeStats(ads.value)
  {
    if user.None? then Unauthorized
    else if role.Err? then ServerError
    else if role.value != Some("company") then Forbidden
    else if company.Err? || company.value.None? then ProfileNotFound
    else if ads.Err? then ServerError
    else Listed(ads.value, ComputeStats(ads.value))
  }

  // ---------------------------------------------------------------- properties

  /** Each gate answers with its own status and error body, and a failed
      read ends in 500 "Failed to fetch ads". */
  lemma ListAdsErrors(user: Option<string>, role: Result<Option<string>, Thrown>,
                      company: Result<Option<string>, Thrown>, ads: Result<seq<Ad>, Thrown>)
    ensures var r := ListAds(user, role, company, ads);
      && (user.None? ==> Status(r) == 401 && Error(r) == "Unauthorized")
      && (user.Some? && role.Ok? && role.value != Some("company") ==>
            Status(r) == 403 && Error(r) == "Only companies can view ads")
      && (user.Some? && role == Ok(Some("company")) && (company.Err? || company.value.None?) ==>
            Status(r) == 404 && Error(r) == "Company profile not found")
      && (user.Some? && (role.Err? || (role == Ok(Some("company")) && company.Ok? && company.value.Some? && ads.Err?)) ==>
            Status(r) == 500 && Error(r) == "Failed to fetch ads")
  {
  }

  /** No more ads are active than there are ads. */
  lemma ActiveAtMostTotal(ads: seq<Ad>)
    ensures ComputeStats(ads).activeAds <= ComputeStats(ads).totalAds
  {
  }

  /** `activeAds` counts exactly the ads whose status is "active", each as often as it occurs. */
  lemma ActiveCount(ads: seq<Ad>, ad: Ad)
    ensures multiset(ActiveAds(ads))[ad] == if ad.status == "active" then multiset(ads)[ad] else 0
  {
    FilterCount(ads, IsActive, ad);
  }

  lemma {:induction false} SumImpressionsConcat(a: seq<Ad>, b: seq<Ad>)
    ensures SumImpressions(a + b) == SumImpressions(a) + SumImpressions(b)
  {
    if b != [] {
      assert (a + b)[..|a + b| - 1] == a + b[..|b| - 1];
      SumImpressionsConcat(a, b[..|b| - 1]);
    } else {
      assert a + b == a;
    }
  }

  lemma {:induction false} SumClicksConcat(a: seq<Ad>, b: seq<Ad>)
    ensures SumClicks(a + b) == SumClicks(a) + SumClicks(b)
  {
    if b != [] {
      assert (a + b)[..|a + b| - 1] == a + b[..|b| - 1];
      SumClicksConcat(a, b[..|b| - 1]);
    } else {
      assert a + b == a;
    }
  }

  lemma ActiveAdditive(a: seq<Ad>, b: seq<Ad>)
    ensures |ActiveAds(a + b)| == |ActiveAds(a)| + |ActiveAds(b)|
  {
    FilterConcat(a, b, IsActive);
  }

  /** The statistics of two lists put together are the field-wise sums. */
  lemma StatsAdditive(a: seq<Ad>, b: seq<Ad>)
    ensures ComputeStats(a + b) == AddStats(ComputeStats(a), ComputeStats(b))
  {
    ActiveAdditive(a, b);
    SumImpressionsConcat(a, b);
    SumClicksConcat(a, b);
  }

  /** The statistics of one ad. */
  lemma StatsSingle(ad: Ad)
    ensures ComputeStats([ad]) == Stats(1, if ad.status == "active" then 1 else 0, ad.impressions.GetOr(0), ad.clicks.GetOr(0))
  {
    assert [ad][..0] == [] && [ad][1..] == [];
    assert ActiveAds([ad]) == (if IsActive(ad) then [ad] else []) + Filter([], IsActive);
    assert SumImpressions([ad]) == SumImpressions([]) + Impressions(ad);
    assert SumClicks([ad]) == SumClicks([]) + Clicks(ad);
  }

  /** With no negative counter stored, the totals are not negative. */
  lemma {:induction false} TotalsNonNegative(ads: seq<Ad>)
    requires forall i :: 0 <= i < |ads| ==> Impressions(ads[i]) >= 0 && Clicks(ads[i]) >= 0
    ensures ComputeStats(ads).totalImpressions >= 0 && ComputeStats(ads).totalClicks >= 0
  {
    if ads != [] {
      var init := ads[..|ads| - 1];
      assert forall i :: 0 <= i < |init| ==> init[i] == ads[i];
      TotalsNonNegative(init);
    }
  }

  /** The gates are tried in order and none of them computes statistics: a
      missing session wins over everything, a non-company role over a
      missing profile. */
  lemma GateOrder(role: Result<Option<string>, Thrown>, company: Result<Option<string>, Thrown>,
                  ads: Result<seq<Ad>, Thrown>, uid: string)
    ensures Status(ListAds(None, role, company, ads)) == 401
    ensures role.Ok? && role.value != Some("company") ==> Status(ListAds(Some(uid), role, company, ads)) == 403
    ensures role == Ok(Some("company")) && company == Ok(None) ==> Status(ListAds(Some(uid), role, company, ads)) == 404
  {
  }
}
