/**
 * The three summary views of the transform stage (scripts/transform.py,
 * _create_aggregations): performance by brand, effectiveness by channel and
 * engagement by (HCP, brand). Each is a chain of left merges followed by a
 * group-by; a group-by drops rows whose grouping key is missing, so a row that
 * finds no match in a merge falls out of the summary.
 *
 * Every summary is a map from group key to its reduced row.
 */
module Aggregation {
  import opened Wrappers
  import opened Seqs
  import opened Tables
  import opened Cleaning
  import opened Enrichment

  // ---------------------------------------------------------------------------
  // Unguarded floating-point quotients
  // ---------------------------------------------------------------------------

  /**
   * A floating-point quotient: x / 0 is +inf or -inf by the sign of x, and 0 / 0
   * is NaN; every other quotient is a finite value.
   */
  datatype Quotient = Finite(value: real) | PosInf | NegInf | NaN

  function Divide(n: real, d: real): (q: Quotient)
    ensures q.Finite? <==> d != 0.0
    ensures q.Finite? ==> q.value * d == n
    ensures q == NaN <==> d == 0.0 && n == 0.0
    ensures q == PosInf <==> d == 0.0 && n > 0.0
    ensures q == NegInf <==> d == 0.0 && n < 0.0
  {
    if d != 0.0 then Finite(n / d)
    else if n > 0.0 then PosInf
    else if n < 0.0 then NegInf
    else NaN
  }

  // ---------------------------------------------------------------------------
  // Brand performance: enriched campaigns -> brands, grouped by brand_name
  // ---------------------------------------------------------------------------

  datatype BrandPerformance = BrandPerformance(
    totalCampaigns: nat,
    totalSpend: real,
    totalConversions: int,
    avgConversionRate: real)

  type BrandRow = (EnrichedCampaign, Option<Brand>)

  function CampaignBrandId(e: EnrichedCampaign): Key { e.campaign.brandId }

  function BrandNameOf(row: BrandRow): Option<string>
  {
    if row.1.Some? then row.1.value.brandName else None
  }

  predicate HasCampaignId(e: EnrichedCampaign) { e.campaign.campaignId.Some? }

  /** A sum skips NaN: a campaign without performance rows adds nothing. */
  function EnrichedSpend(e: EnrichedCampaign): real
  {
    if e.totals.Some? then e.totals.value.spend else 0.0
  }

  function EnrichedConversions(e: EnrichedCampaign): int
  {
    if e.totals.Some? then e.totals.value.conversions else 0
  }

  function ConversionRateOf(e: EnrichedCampaign): real { e.conversionRate }

  /** count of campaign ids, sums of spend and conversions, mean conversion rate. */
  function SummarizeBrand(rows: seq<EnrichedCampaign>): BrandPerformance
    requires |rows| > 0
  {
    BrandPerformance(
      Count(rows, HasCampaignId),
      SumReal(rows, EnrichedSpend),
      SumInt(rows, EnrichedConversions),
      Mean(rows, ConversionRateOf))
  }

  function BrandJoin(enriched: seq<EnrichedCampaign>, brands: seq<Brand>): seq<BrandRow>
  {
    LeftJoin(enriched, brands, CampaignBrandId, BrandIdOf)
  }

  /** The campaigns the group of one brand name reduces over. */
  function BrandGroup(enriched: seq<EnrichedCampaign>, brands: seq<Brand>, name: string): seq<EnrichedCampaign>
  {
    Project(Select(BrandJoin(enriched, brands), BrandNameOf, name))
  }

  /**
   * One summary row per brand name that some campaign links to; the group-by
   * in one pass reduces exactly the campaigns of that brand name.
   */
  function AggregateByBrand(enriched: seq<EnrichedCampaign>, brands: seq<Brand>): (agg: map<string, BrandPerformance>)
    ensures forall name :: name in agg <==>
      exists row :: row in BrandJoin(enriched, brands) && BrandNameOf(row) == Some(name)
    ensures forall name :: name in agg ==>
      |BrandGroup(enriched, brands, name)| > 0 && agg[name] == SummarizeBrand(BrandGroup(enriched, brands, name))
  {
    var joined := BrandJoin(enriched, brands);
    var groups := Group(joined, BrandNameOf);
    GroupIsSelect(joined, BrandNameOf);
    map name | name in groups :: SummarizeBrand(Project(groups[name]))
  }

  /** A brand has a summary row exactly when some campaign's brand id equals the id of a brand of that name. */
  lemma BrandNames(enriched: seq<EnrichedCampaign>, brands: seq<Brand>)
    ensures forall name :: name in AggregateByBrand(enriched, brands) <==>
      exists e, b :: e in enriched && b in brands && b.brandId == e.campaign.brandId && b.brandName == Some(name)
  {
    forall name ensures name in AggregateByBrand(enriched, brands) <==>
      exists e, b :: e in enriched && b in brands && b.brandId == e.campaign.brandId && b.brandName == Some(name)
    {
      BrandNameInJoin(enriched, brands, name);
    }
  }

  lemma BrandNameInJoin(enriched: seq<EnrichedCampaign>, brands: seq<Brand>, name: string)
    ensures (exists row :: row in BrandJoin(enriched, brands) && BrandNameOf(row) == Some(name)) <==>
      exists e, b :: e in enriched && b in brands && b.brandId == e.campaign.brandId && b.brandName == Some(name)
  {
    var joined := BrandJoin(enriched, brands);
    if exists row :: row in joined && BrandNameOf(row) == Some(name) {
      var row :| row in joined && BrandNameOf(row) == Some(name);
      assert row.0 in enriched && row.1.value in brands;
    }
    if exists e, b :: e in enriched && b in brands && b.brandId == e.campaign.brandId && b.brandName == Some(name) {
      var e, b :| e in enriched && b in brands && b.brandId == e.campaign.brandId && b.brandName == Some(name);
      LeftJoinComplete(enriched, brands, CampaignBrandId, BrandIdOf, e, b);
      assert BrandNameOf((e, Some(b))) == Some(name);
    }
  }

  /** The name of the brand a campaign's brand id resolves to, if any. */
  function BrandOfCampaign(brands: seq<Brand>, e: EnrichedCampaign): Option<string>
  {
    var b := Lookup(brands, BrandIdOf, e.campaign.brandId);
    if b.Some? then b.value.brandName else None
  }

  /**
   * When brand ids are unique, the group of a brand name is exactly the
   * enriched campaigns whose brand has that name, in campaign order: the
   * summary counts those campaigns and sums their spend and conversions.
   */
  lemma {:induction false} BrandGroupIsCampaignsOfBrand(enriched: seq<EnrichedCampaign>, brands: seq<Brand>, name: string)
    requires Unique(brands, BrandIdOf)
    ensures BrandGroup(enriched, brands, name) == Filter(enriched, (e: EnrichedCampaign) => BrandOfCampaign(brands, e) == Some(name))
  {
    JoinSelect(enriched, brands, CampaignBrandId, BrandIdOf, BrandNameOf, name,
      (e: EnrichedCampaign) => BrandOfCampaign(brands, e) == Some(name));
  }

  /** With unique brand ids, the brand summary is the reduction of the brand's campaigns. */
  lemma BrandTotals(enriched: seq<EnrichedCampaign>, brands: seq<Brand>, name: string)
    requires Unique(brands, BrandIdOf)
    requires name in AggregateByBrand(enriched, brands)
    ensures var mine := Filter(enriched, (e: EnrichedCampaign) => BrandOfCampaign(brands, e) == Some(name));
      |mine| > 0 &&
      AggregateByBrand(enriched, brands)[name] == SummarizeBrand(mine) &&
      AggregateByBrand(enriched, brands)[name].totalCampaigns <= |mine|
  {
    BrandGroupIsCampaignsOfBrand(enriched, brands, name);
  }

  /** The brand reduction of two orderings of the same campaigns agrees. */
  lemma SummarizeBrandPermutation(a: seq<EnrichedCampaign>, b: seq<EnrichedCampaign>)
    requires multiset(a) == multiset(b) && |a| > 0
    ensures |b| > 0 && SummarizeBrand(a) == SummarizeBrand(b)
  {
    CountPermutation(a, b, HasCampaignId);
    SumRealPermutation(a, b, EnrichedSpend);
    SumIntPermutation(a, b, EnrichedConversions);
    MeanPermutation(a, b, ConversionRateOf);
  }

  /** A brand reached before the campaigns are reordered is reached after, with the same summary. */
  lemma BrandEntryIgnoresOrder(e1: seq<EnrichedCampaign>, e2: seq<EnrichedCampaign>, brands: seq<Brand>, name: string)
    requires Unique(brands, BrandIdOf)
    requires multiset(e1) == multiset(e2) && name in AggregateByBrand(e1, brands)
    ensures name in AggregateByBrand(e2, brands)
    ensures AggregateByBrand(e1, brands)[name] == AggregateByBrand(e2, brands)[name]
  {
    BrandNameCarriesOver(e1, e2, brands, name);
    BrandGroupPermutation(e1, e2, brands, name);
    SummarizeBrandPermutation(BrandGroup(e1, brands, name), BrandGroup(e2, brands, name));
  }

  /** A brand reached by some campaign is still reached once the campaigns are reordered. */
  lemma BrandNameCarriesOver(e1: seq<EnrichedCampaign>, e2: seq<EnrichedCampaign>, brands: seq<Brand>, name: string)
    requires multiset(e1) == multiset(e2) && name in AggregateByBrand(e1, brands)
    ensures name in AggregateByBrand(e2, brands)
  {
    BrandNames(e1, brands);
    BrandNames(e2, brands);
    var e, b :| e in e1 && b in brands && b.brandId == e.campaign.brandId && b.brandName == Some(name);
    assert e in multiset(e2);
  }

  /** Reordering the campaigns only reorders the group of each brand. */
  lemma BrandGroupPermutation(e1: seq<EnrichedCampaign>, e2: seq<EnrichedCampaign>, brands: seq<Brand>, name: string)
    requires Unique(brands, BrandIdOf)
    requires multiset(e1) == multiset(e2)
    ensures multiset(BrandGroup(e1, brands, name)) == multiset(BrandGroup(e2, brands, name))
  {
    BrandGroupIsCampaignsOfBrand(e1, brands, name);
    BrandGroupIsCampaignsOfBrand(e2, brands, name);
    FilterPermutation(e1, e2, (e: EnrichedCampaign) => BrandOfCampaign(brands, e) == Some(name));
  }

  /** Every brand summary of one ordering of the campaigns is a brand summary of the other. */
  lemma BrandEntriesCarryOver(e1: seq<EnrichedCampaign>, e2: seq<EnrichedCampaign>, brands: seq<Brand>)
    requires Unique(brands, BrandIdOf)
    requires multiset(e1) == multiset(e2)
    ensures Covers(AggregateByBrand(e1, brands), AggregateByBrand(e2, brands))
  {
    forall name | name in AggregateByBrand(e1, brands)
      ensures name in AggregateByBrand(e2, brands) && AggregateByBrand(e1, brands)[name] == AggregateByBrand(e2, brands)[name]
    {
      BrandEntryIgnoresOrder(e1, e2, brands, name);
    }
  }

  /** With unique brand ids, the brand summary does not depend on the order of the enriched campaigns. */
  lemma BrandSummaryIgnoresCampaignOrder(e1: seq<EnrichedCampaign>, e2: seq<EnrichedCampaign>, brands: seq<Brand>)
    requires Unique(brands, BrandIdOf)
    requires multiset(e1) == multiset(e2)
    ensures AggregateByBrand(e1, brands) == AggregateByBrand(e2, brands)
  {
    BrandEntriesCarryOver(e1, e2, brands);
    BrandEntriesCarryOver(e2, e1, brands);
    SameEntries(AggregateByBrand(e1, brands), AggregateByBrand(e2, brands));
  }

  // ---------------------------------------------------------------------------
  // Channel effectiveness: performance -> campaigns -> channels, by channel_name
  // ---------------------------------------------------------------------------

  datatype ChannelEffectiveness = ChannelEffectiveness(
    totalImpressions: int,
    totalClicks: int,
    totalSpend: real,
    totalConversions: int,
    ctr: Quotient,
    avgCostPerClick: Quotient)

  /** A performance row with the enriched campaign it merged with (campaign_id, channel_id). */
  type CampaignMatch = (Performance, Option<EnrichedCampaign>)
  type ChannelRow = (CampaignMatch, Option<Channel>)

  function EnrichedCampaignId(e: EnrichedCampaign): Key { e.campaign.campaignId }

  /** The channel id after the first merge: NaN when the performance row found no campaign. */
  function MatchedChannelId(m: CampaignMatch): Key
  {
    if m.1.Some? then m.1.value.campaign.channelId else None
  }

  function ChannelNameOf(row: ChannelRow): Option<string>
  {
    if row.1.Some? then row.1.value.channelName else None
  }

  /** Sums of the four measures, then CTR and average cost per click with no zero guard. */
  function SummarizeChannel(rows: seq<Performance>): ChannelEffectiveness
  {
    var impressions := SumInt(rows, ImpressionsOf);
    var clicks := SumInt(rows, ClicksOf);
    var spend := SumReal(rows, SpendOf);
    ChannelEffectiveness(
      impressions, clicks, spend, SumInt(rows, ConversionsOf),
      Divide(clicks as real, impressions as real),
      Divide(spend, clicks as real))
  }

  /** The join plan performance -> enriched campaign (on campaign_id) -> channel (on channel_id). */
  function ChannelJoin(enriched: seq<EnrichedCampaign>, performance: seq<Performance>, channels: seq<Channel>): seq<ChannelRow>
  {
    var perfCamp := LeftJoin(performance, enriched, PerformanceCampaignId, EnrichedCampaignId);
    LeftJoin(perfCamp, channels, MatchedChannelId, ChannelIdOf)
  }

  /** The performance rows the group of one channel name reduces over. */
  function ChannelGroup(enriched: seq<EnrichedCampaign>, performance: seq<Performance>, channels: seq<Channel>, name: string): seq<Performance>
  {
    Project(Project(Select(ChannelJoin(enriched, performance, channels), ChannelNameOf, name)))
  }

  /** One summary row per channel name reached by some performance row; the one-pass group-by reduces its group. */
  function AggregateByChannel(enriched: seq<EnrichedCampaign>, performance: seq<Performance>, channels: seq<Channel>)
    : (agg: map<string, ChannelEffectiveness>)
    ensures forall name :: name in agg <==>
      exists row :: row in ChannelJoin(enriched, performance, channels) && ChannelNameOf(row) == Some(name)
    ensures forall name :: name in agg ==> agg[name] == SummarizeChannel(ChannelGroup(enriched, performance, channels, name))
  {
    var joined := ChannelJoin(enriched, performance, channels);
    var groups := Group(joined, ChannelNameOf);
    GroupIsSelect(joined, ChannelNameOf);
    map name | name in groups :: SummarizeChannel(Project(Project(groups[name])))
  }

  /** The rows of a channel group are rows of the performance table. */
  lemma ChannelGroupRowsArePerformanceRows(enriched: seq<EnrichedCampaign>, performance: seq<Performance>, channels: seq<Channel>, name: string)
    ensures forall p :: p in ChannelGroup(enriched, performance, channels, name) ==> p in performance
  {
    var perfCamp := LeftJoin(performance, enriched, PerformanceCampaignId, EnrichedCampaignId);
    ProjectSelectIn(perfCamp, channels, MatchedChannelId, ChannelIdOf, ChannelNameOf, name);
    var mid := Project(Select(ChannelJoin(enriched, performance, channels), ChannelNameOf, name));
    forall p | p in Project(mid) ensures p in performance {
      var i :| 0 <= i < |mid| && Project(mid)[i] == p;
      assert mid[i] in mid;
    }
  }

  /**
   * Every row a channel group reduces over found its campaign among the
   * enriched campaigns, when every channel has an id: orphaned performance
   * rows (a campaign id no cleaned campaign has) fall out of the summary.
   */
  lemma ChannelGroupRowsHaveCampaign(enriched: seq<EnrichedCampaign>, performance: seq<Performance>, channels: seq<Channel>, name: string)
    requires forall ch :: ch in channels ==> ch.channelId.Some?
    ensures forall p :: p in ChannelGroup(enriched, performance, channels, name) ==>
      exists e :: e in enriched && e.campaign.campaignId == p.campaignId
  {
    forall p | p in ChannelGroup(enriched, performance, channels, name)
      ensures exists e :: e in enriched && e.campaign.campaignId == p.campaignId
    {
      ChannelGroupMemberHasCampaign(enriched, performance, channels, name, p);
    }
  }

  /** One row of a channel group found its campaign. */
  lemma ChannelGroupMemberHasCampaign(enriched: seq<EnrichedCampaign>, performance: seq<Performance>, channels: seq<Channel>,
                                      name: string, p: Performance)
    requires forall ch :: ch in channels ==> ch.channelId.Some?
    requires p in ChannelGroup(enriched, performance, channels, name)
    ensures exists e :: e in enriched && e.campaign.campaignId == p.campaignId
  {
    var sel := Select(ChannelJoin(enriched, performance, channels), ChannelNameOf, name);
    var mid := Project(sel);
    var i :| 0 <= i < |mid| && Project(mid)[i] == p;
    assert sel[i] in sel;
    ChannelRowHasCampaign(enriched, performance, channels, sel[i]);
    assert sel[i].0.1.value in enriched;
  }

  /** A row of the channel merge that found a channel with an id also found its campaign. */
  lemma ChannelRowHasCampaign(enriched: seq<EnrichedCampaign>, performance: seq<Performance>, channels: seq<Channel>, row: ChannelRow)
    requires forall ch :: ch in channels ==> ch.channelId.Some?
    requires row in ChannelJoin(enriched, performance, channels) && row.1.Some?
    ensures row.0.1.Some? && row.0.1.value in enriched && row.0.1.value.campaign.campaignId == row.0.0.campaignId
  {
    assert row.1.value in channels;
    assert MatchedChannelId(row.0) == row.1.value.channelId;
    var perfCamp := LeftJoin(performance, enriched, PerformanceCampaignId, EnrichedCampaignId);
    assert row.0 in perfCamp;
  }

  /** Cleaned performance rows never have more clicks than impressions, so neither does any channel total. */
  lemma {:induction false} ChannelClicksWithinImpressions(enriched: seq<EnrichedCampaign>, performance: seq<Performance>, channels: seq<Channel>)
    requires forall p :: p in performance ==> PerformanceConsistent(p)
    ensures forall name :: name in AggregateByChannel(enriched, performance, channels) ==>
      AggregateByChannel(enriched, performance, channels)[name].totalClicks <=
      AggregateByChannel(enriched, performance, channels)[name].totalImpressions
  {
    forall name | name in AggregateByChannel(enriched, performance, channels)
      ensures AggregateByChannel(enriched, performance, channels)[name].totalClicks <=
              AggregateByChannel(enriched, performance, channels)[name].totalImpressions
    {
      ChannelGroupRowsArePerformanceRows(enriched, performance, channels, name);
      SumIntMonotone(ChannelGroup(enriched, performance, channels, name), ClicksOf, ImpressionsOf);
    }
  }

  /**
   * The channel KPIs are plain quotients: CTR is defined exactly when the
   * impressions total is non-zero (then CTR * impressions = clicks) and the
   * average cost per click exactly when the clicks total is non-zero. A channel
   * with no impressions and no clicks has a NaN CTR.
   */
  lemma ChannelKpis(enriched: seq<EnrichedCampaign>, performance: seq<Performance>, channels: seq<Channel>, name: string)
    requires name in AggregateByChannel(enriched, performance, channels)
    ensures var s := AggregateByChannel(enriched, performance, channels)[name];
      s.ctr == Divide(s.totalClicks as real, s.totalImpressions as real) &&
      s.avgCostPerClick == Divide(s.totalSpend, s.totalClicks as real) &&
      (s.totalImpressions != 0 ==> s.ctr == Finite((s.totalClicks as real) / (s.totalImpressions as real))) &&
      (s.totalImpressions == 0 && s.totalClicks == 0 ==> s.ctr == NaN) &&
      (s.totalClicks != 0 ==> s.avgCostPerClick == Finite(s.totalSpend / (s.totalClicks as real)))
  {
    var s := AggregateByChannel(enriched, performance, channels)[name];
    assert s == SummarizeChannel(ChannelGroup(enriched, performance, channels, name));
  }

  /**
   * When no cleaned row has negative clicks, every CTR is NaN (no impressions)
   * or a finite value in [0, 1].
   */
  lemma {:induction false} CtrWithinUnitRange(enriched: seq<EnrichedCampaign>, performance: seq<Performance>, channels: seq<Channel>)
    requires forall p :: p in performance ==> PerformanceConsistent(p) && p.clicks >= 0
    ensures forall name :: name in AggregateByChannel(enriched, performance, channels) ==>
      var q := AggregateByChannel(enriched, performance, channels)[name].ctr;
      q == NaN || (q.Finite? && 0.0 <= q.value <= 1.0)
  {
    var agg := AggregateByChannel(enriched, performance, channels);
    forall name | name in agg ensures agg[name].ctr == NaN || (agg[name].ctr.Finite? && 0.0 <= agg[name].ctr.value <= 1.0) {
      var rows := ChannelGroup(enriched, performance, channels, name);
      ChannelGroupRowsArePerformanceRows(enriched, performance, channels, name);
      SumIntMonotone(rows, ClicksOf, ImpressionsOf);
      SumIntNonNegative(rows, ClicksOf);
      var s := agg[name];
      ChannelKpis(enriched, performance, channels, name);
      if s.totalImpressions != 0 {
        UnitQuotient(s.totalClicks as real, s.totalImpressions as real);
      }
    }
  }

  /** A quotient of a non-negative number by a number at least as large lies in [0, 1]. */
  lemma UnitQuotient(c: real, i: real)
    requires 0.0 <= c <= i && i != 0.0
    ensures 0.0 <= c / i <= 1.0
  {
    assert (c / i) * i == c;
  }

  /** The channel name a performance row reaches through its campaign, if any. */
  function ChannelOfPerformance(enriched: seq<EnrichedCampaign>, channels: seq<Channel>, p: Performance): Option<string>
  {
    var m := (p, Lookup(enriched, EnrichedCampaignId, p.campaignId));
    var ch := Lookup(channels, ChannelIdOf, MatchedChannelId(m));
    if ch.Some? then ch.value.channelName else None
  }

  /** A row whose campaign is enriched reaches that campaign's channel, when the channel is listed. */
  lemma ChannelThroughCampaign(enriched: seq<EnrichedCampaign>, channels: seq<Channel>, p: Performance,
                               e: EnrichedCampaign, ch: Channel)
    requires Unique(enriched, EnrichedCampaignId) && Unique(channels, ChannelIdOf)
    requires e in enriched && ch in channels
    requires p.campaignId == e.campaign.campaignId && e.campaign.channelId == ch.channelId
    ensures ChannelOfPerformance(enriched, channels, p) == ch.channelName
  {
    LookupFound(enriched, EnrichedCampaignId, e);
    LookupFound(channels, ChannelIdOf, ch);
  }

  /**
   * With unique campaign ids and unique channel ids, the group of a channel
   * name is exactly the performance rows whose campaign's channel has that
   * name, in table order.
   */
  lemma {:induction false} ChannelGroupIsRowsOfChannel(enriched: seq<EnrichedCampaign>, performance: seq<Performance>, channels: seq<Channel>, name: string)
    requires Unique(enriched, EnrichedCampaignId) && Unique(channels, ChannelIdOf)
    ensures ChannelGroup(enriched, performance, channels, name) ==
      Filter(performance, (p: Performance) => ChannelOfPerformance(enriched, channels, p) == Some(name))
  {
    var perfCamp := LeftJoin(performance, enriched, PerformanceCampaignId, EnrichedCampaignId);
    var viaChannel := (m: CampaignMatch) => ChannelNameOf((m, Lookup(channels, ChannelIdOf, MatchedChannelId(m)))) == Some(name);
    JoinSelect(perfCamp, channels, MatchedChannelId, ChannelIdOf, ChannelNameOf, name, viaChannel);
    JoinFilter(performance, enriched, PerformanceCampaignId, EnrichedCampaignId, viaChannel,
      (p: Performance) => ChannelOfPerformance(enriched, channels, p) == Some(name));
  }

  /**
   * With unique ids, a channel name has a summary row exactly when some cleaned
   * performance row reaches it through its campaign; orphaned rows reach none.
   */
  lemma ChannelNamesReached(enriched: seq<EnrichedCampaign>, performance: seq<Performance>, channels: seq<Channel>, name: string)
    requires Unique(enriched, EnrichedCampaignId) && Unique(channels, ChannelIdOf)
    ensures name in AggregateByChannel(enriched, performance, channels) <==>
      exists p :: p in performance && ChannelOfPerformance(enriched, channels, p) == Some(name)
  {
    var sel := Select(ChannelJoin(enriched, performance, channels), ChannelNameOf, name);
    ChannelGroupIsRowsOfChannel(enriched, performance, channels, name);
    SelectNonEmpty(ChannelJoin(enriched, performance, channels), ChannelNameOf, name);
    FilterNonEmpty(performance, (p: Performance) => ChannelOfPerformance(enriched, channels, p) == Some(name));
    assert |Project(Project(sel))| == |sel|;
  }

  /** The channel reduction of two orderings of the same rows agrees. */
  lemma SummarizeChannelPermutation(a: seq<Performance>, b: seq<Performance>)
    requires multiset(a) == multiset(b)
    ensures SummarizeChannel(a) == SummarizeChannel(b)
  {
    SumIntPermutation(a, b, ImpressionsOf);
    SumIntPermutation(a, b, ClicksOf);
    SumRealPermutation(a, b, SpendOf);
    SumIntPermutation(a, b, ConversionsOf);
  }

  /** A channel reached before the performance rows are reordered is reached after, with the same summary. */
  lemma ChannelEntryIgnoresOrder(enriched: seq<EnrichedCampaign>, p1: seq<Performance>, p2: seq<Performance>, channels: seq<Channel>, name: string)
    requires Unique(enriched, EnrichedCampaignId) && Unique(channels, ChannelIdOf)
    requires multiset(p1) == multiset(p2) && name in AggregateByChannel(enriched, p1, channels)
    ensures name in AggregateByChannel(enriched, p2, channels)
    ensures AggregateByChannel(enriched, p1, channels)[name] == AggregateByChannel(enriched, p2, channels)[name]
  {
    ChannelNameCarriesOver(enriched, p1, p2, channels, name);
    ChannelGroupPermutation(enriched, p1, p2, channels, name);
    SummarizeChannelPermutation(ChannelGroup(enriched, p1, channels, name), ChannelGroup(enriched, p2, channels, name));
  }

  /** A channel reached by some performance row is still reached once the rows are reordered. */
  lemma ChannelNameCarriesOver(enriched: seq<EnrichedCampaign>, p1: seq<Performance>, p2: seq<Performance>, channels: seq<Channel>, name: string)
    requires Unique(enriched, EnrichedCampaignId) && Unique(channels, ChannelIdOf)
    requires multiset(p1) == multiset(p2) && name in AggregateByChannel(enriched, p1, channels)
    ensures name in AggregateByChannel(enriched, p2, channels)
  {
    assert exists p :: p in p1 && ChannelOfPerformance(enriched, channels, p) == Some(name) by {
      ChannelNamesReached(enriched, p1, channels, name);
    }
    var p :| p in p1 && ChannelOfPerformance(enriched, channels, p) == Some(name);
    assert p in p2 by {
      assert p in multiset(p2);
    }
    ChannelNamesReached(enriched, p2, channels, name);
  }

  /** Reordering the performance rows only reorders the group of each channel. */
  lemma ChannelGroupPermutation(enriched: seq<EnrichedCampaign>, p1: seq<Performance>, p2: seq<Performance>, channels: seq<Channel>, name: string)
    requires Unique(enriched, EnrichedCampaignId) && Unique(channels, ChannelIdOf)
    requires multiset(p1) == multiset(p2)
    ensures multiset(ChannelGroup(enriched, p1, channels, name)) == multiset(ChannelGroup(enriched, p2, channels, name))
  {
    ChannelGroupIsRowsOfChannel(enriched, p1, channels, name);
    ChannelGroupIsRowsOfChannel(enriched, p2, channels, name);
    FilterPermutation(p1, p2, (p: Performance) => ChannelOfPerformance(enriched, channels, p) == Some(name));
  }

  /** Every channel summary of one ordering of the performance rows is a channel summary of the other. */
  lemma ChannelEntriesCarryOver(enriched: seq<EnrichedCampaign>, p1: seq<Performance>, p2: seq<Performance>, channels: seq<Channel>)
    requires Unique(enriched, EnrichedCampaignId) && Unique(channels, ChannelIdOf)
    requires multiset(p1) == multiset(p2)
    ensures Covers(AggregateByChannel(enriched, p1, channels), AggregateByChannel(enriched, p2, channels))
  {
    forall name | name in AggregateByChannel(enriched, p1, channels)
      ensures name in AggregateByChannel(enriched, p2, channels) &&
        AggregateByChannel(enriched, p1, channels)[name] == AggregateByChannel(enriched, p2, channels)[name]
    {
      ChannelEntryIgnoresOrder(enriched, p1, p2, channels, name);
    }
  }

  /**
   * With unique ids, the channel summary does not depend on the order of the
   * cleaned performance rows: the totals are sums over each channel's rows.
   */
  lemma ChannelSummaryIgnoresPerformanceOrder(enriched: seq<EnrichedCampaign>, p1: seq<Performance>, p2: seq<Performance>, channels: seq<Channel>)
    requires Unique(enriched, EnrichedCampaignId) && Unique(channels, ChannelIdOf)
    requires multiset(p1) == multiset(p2)
    ensures AggregateByChannel(enriched, p1, channels) == AggregateByChannel(enriched, p2, channels)
  {
    ChannelEntriesCarryOver(enriched, p1, p2, channels);
    ChannelEntriesCarryOver(enriched, p2, p1, channels);
    SameEntries(AggregateByChannel(enriched, p1, channels), AggregateByChannel(enriched, p2, channels));
  }

  /**
   * With unique ids, the channel totals are the sums over exactly the cleaned
   * performance rows whose campaign survived and maps to that channel.
   */
  lemma ChannelTotals(enriched: seq<EnrichedCampaign>, performance: seq<Performance>, channels: seq<Channel>, name: string)
    requires Unique(enriched, EnrichedCampaignId) && Unique(channels, ChannelIdOf)
    requires name in AggregateByChannel(enriched, performance, channels)
    ensures var mine := Filter(performance, (p: Performance) => ChannelOfPerformance(enriched, channels, p) == Some(name));
      var s := AggregateByChannel(enriched, performance, channels)[name];
      s.totalImpressions == SumInt(mine, ImpressionsOf) &&
      s.totalClicks == SumInt(mine, ClicksOf) &&
      s.totalSpend == SumReal(mine, SpendOf) &&
      s.totalConversions == SumInt(mine, ConversionsOf)
  {
    ChannelGroupIsRowsOfChannel(enriched, performance, channels, name);
  }

  // ---------------------------------------------------------------------------
  // HCP summary: engagements -> campaigns -> brands, by (hcp_id, brand_name)
  // ---------------------------------------------------------------------------

  datatype HcpSummary = HcpSummary(totalInteractions: nat, avgEngagementTime: real)

  /** An engagement with the enriched campaign it merged with (campaign_id, brand_id). */
  type EngagementMatch = (Engagement, Option<EnrichedCampaign>)
  type HcpRow = (EngagementMatch, Option<Brand>)

  /** The brand id after the first merge: NaN when the engagement found no campaign. */
  function MatchedBrandId(m: EngagementMatch): Key
  {
    if m.1.Some? then m.1.value.campaign.brandId else None
  }

  /** The grouping key (hcp_id, brand_name): missing when either part is. */
  function HcpKeyOf(row: HcpRow): Option<(int, string)>
  {
    if row.0.0.hcpId.Some? && row.1.Some? && row.1.value.brandName.Some? then
      Some((row.0.0.hcpId.value, row.1.value.brandName.value))
    else None
  }

  predicate HasEngagementId(h: Engagement) { h.engagementId.Some? }

  function DurationOf(h: Engagement): real { h.durationSec as real }

  /** count of engagement ids and mean duration. */
  function SummarizeHcp(rows: seq<Engagement>): HcpSummary
    requires |rows| > 0
  {
    HcpSummary(Count(rows, HasEngagementId), Mean(rows, DurationOf))
  }

  /** The join plan engagement -> enriched campaign (on campaign_id) -> brand (on brand_id). */
  function HcpJoin(enriched: seq<EnrichedCampaign>, engagements: seq<Engagement>, brands: seq<Brand>): seq<HcpRow>
  {
    var hcpCamp := LeftJoin(engagements, enriched, EngagementCampaignId, EnrichedCampaignId);
    LeftJoin(hcpCamp, brands, MatchedBrandId, BrandIdOf)
  }

  function HcpGroup(enriched: seq<EnrichedCampaign>, engagements: seq<Engagement>, brands: seq<Brand>, key: (int, string)): seq<Engagement>
  {
    Project(Project(Select(HcpJoin(enriched, engagements, brands), HcpKeyOf, key)))
  }

  /** One summary row per (hcp_id, brand_name) reached by some engagement. */
  function AggregateByHcp(enriched: seq<EnrichedCampaign>, engagements: seq<Engagement>, brands: seq<Brand>)
    : (agg: map<(int, string), HcpSummary>)
    ensures forall key :: key in agg <==>
      exists row :: row in HcpJoin(enriched, engagements, brands) && HcpKeyOf(row) == Some(key)
    ensures forall key :: key in agg ==>
      |HcpGroup(enriched, engagements, brands, key)| > 0 && agg[key] == SummarizeHcp(HcpGroup(enriched, engagements, brands, key))
  {
    var joined := HcpJoin(enriched, engagements, brands);
    var groups := Group(joined, HcpKeyOf);
    GroupIsSelect(joined, HcpKeyOf);
    map key | key in groups :: SummarizeHcp(Project(Project(groups[key])))
  }

  /** The (hcp_id, brand_name) an engagement reaches through its campaign, if any. */
  function HcpKeyOfEngagement(enriched: seq<EnrichedCampaign>, brands: seq<Brand>, h: Engagement): Option<(int, string)>
  {
    var m := (h, Lookup(enriched, EnrichedCampaignId, h.campaignId));
    HcpKeyOf((m, Lookup(brands, BrandIdOf, MatchedBrandId(m))))
  }

  /**
   * With unique campaign ids and unique brand ids, the group of (hcp, brand)
   * is exactly the cleaned engagements of that HCP whose campaign's brand has
   * that name, in table order.
   */
  lemma {:induction false} HcpGroupIsEngagementsOfKey(enriched: seq<EnrichedCampaign>, engagements: seq<Engagement>, brands: seq<Brand>, key: (int, string))
    requires Unique(enriched, EnrichedCampaignId) && Unique(brands, BrandIdOf)
    ensures HcpGroup(enriched, engagements, brands, key) ==
      Filter(engagements, (h: Engagement) => HcpKeyOfEngagement(enriched, brands, h) == Some(key))
  {
    var hcpCamp := LeftJoin(engagements, enriched, EngagementCampaignId, EnrichedCampaignId);
    var viaBrand := (m: EngagementMatch) => HcpKeyOf((m, Lookup(brands, BrandIdOf, MatchedBrandId(m)))) == Some(key);
    JoinSelect(hcpCamp, brands, MatchedBrandId, BrandIdOf, HcpKeyOf, key, viaBrand);
    JoinFilter(engagements, enriched, EngagementCampaignId, EnrichedCampaignId, viaBrand,
      (h: Engagement) => HcpKeyOfEngagement(enriched, brands, h) == Some(key));
  }

  /**
   * An engagement whose campaign was dropped by cleaning (no enriched campaign
   * has its id), or whose campaign's brand id is unknown, reaches no group,
   * provided every brand has an id.
   */
  lemma UnlinkedEngagementFallsOut(enriched: seq<EnrichedCampaign>, brands: seq<Brand>, h: Engagement)
    requires forall b :: b in brands ==> b.brandId.Some?
    requires (forall e :: e in enriched ==> e.campaign.campaignId != h.campaignId) ||
             (forall e, b :: e in enriched && b in brands && e.campaign.campaignId == h.campaignId ==> b.brandId != e.campaign.brandId)
    ensures HcpKeyOfEngagement(enriched, brands, h) == None
  {
    var c := Lookup(enriched, EnrichedCampaignId, h.campaignId);
    var m := (h, c);
    if c.Some? {
      assert c.value in enriched && c.value.campaign.campaignId == h.campaignId;
      assert forall b :: b in brands ==> b.brandId != MatchedBrandId(m);
    } else {
      assert MatchedBrandId(m) == None;
    }
  }

  /** With unique ids, an HCP summary counts that HCP's engagements with the brand and averages their duration. */
  lemma HcpTotals(enriched: seq<EnrichedCampaign>, engagements: seq<Engagement>, brands: seq<Brand>, key: (int, string))
    requires Unique(enriched, EnrichedCampaignId) && Unique(brands, BrandIdOf)
    requires key in AggregateByHcp(enriched, engagements, brands)
    ensures var mine := Filter(engagements, (h: Engagement) => HcpKeyOfEngagement(enriched, brands, h) == Some(key));
      |mine| > 0 &&
      AggregateByHcp(enriched, engagements, brands)[key] == SummarizeHcp(mine) &&
      forall h :: h in mine ==> h in engagements && h.hcpId == Some(key.0)
  {
    HcpGroupIsEngagementsOfKey(enriched, engagements, brands, key);
    var mine := Filter(engagements, (h: Engagement) => HcpKeyOfEngagement(enriched, brands, h) == Some(key));
    forall h | h in mine ensures h in engagements && h.hcpId == Some(key.0) {
      assert HcpKeyOfEngagement(enriched, brands, h) == Some(key);
    }
  }

  /** A channel whose rows are known has the sums over those rows as its totals. */
  lemma TotalsOverRows(enriched: seq<EnrichedCampaign>, performance: seq<Performance>, channels: seq<Channel>, name: string,
                       rows: seq<Performance>)
    requires Unique(enriched, EnrichedCampaignId) && Unique(channels, ChannelIdOf)
    requires name in AggregateByChannel(enriched, performance, channels)
    requires Filter(performance, (p: Performance) => ChannelOfPerformance(enriched, channels, p) == Some(name)) == rows
    ensures var s := AggregateByChannel(enriched, performance, channels)[name];
      s.totalImpressions == SumInt(rows, ImpressionsOf) && s.totalClicks == SumInt(rows, ClicksOf) &&
      s.totalSpend == SumReal(rows, SpendOf) && s.totalConversions == SumInt(rows, ConversionsOf)
  {
    ChannelTotals(enriched, performance, channels, name);
  }

  /**
   * With unique ids, an (HCP, brand) key has a summary row exactly when some
   * cleaned engagement reaches it through its campaign and that campaign's brand.
   */
  lemma HcpKeysReached(enriched: seq<EnrichedCampaign>, engagements: seq<Engagement>, brands: seq<Brand>, key: (int, string))
    requires Unique(enriched, EnrichedCampaignId) && Unique(brands, BrandIdOf)
    ensures key in AggregateByHcp(enriched, engagements, brands) <==>
      exists h :: h in engagements && HcpKeyOfEngagement(enriched, brands, h) == Some(key)
  {
    var sel := Select(HcpJoin(enriched, engagements, brands), HcpKeyOf, key);
    HcpGroupIsEngagementsOfKey(enriched, engagements, brands, key);
    SelectNonEmpty(HcpJoin(enriched, engagements, brands), HcpKeyOf, key);
    FilterNonEmpty(engagements, (h: Engagement) => HcpKeyOfEngagement(enriched, brands, h) == Some(key));
    assert |Project(Project(sel))| == |sel|;
  }

  /** The (HCP, brand) reduction of two orderings of the same engagements agrees. */
  lemma SummarizeHcpPermutation(a: seq<Engagement>, b: seq<Engagement>)
    requires multiset(a) == multiset(b) && |a| > 0
    ensures |b| > 0 && SummarizeHcp(a) == SummarizeHcp(b)
  {
    CountPermutation(a, b, HasEngagementId);
    MeanPermutation(a, b, DurationOf);
  }

  /** A key reached before the engagements are reordered is reached after, with the same summary. */
  lemma HcpEntryIgnoresOrder(enriched: seq<EnrichedCampaign>, g1: seq<Engagement>, g2: seq<Engagement>, brands: seq<Brand>, key: (int, string))
    requires Unique(enriched, EnrichedCampaignId) && Unique(brands, BrandIdOf)
    requires multiset(g1) == multiset(g2) && key in AggregateByHcp(enriched, g1, brands)
    ensures key in AggregateByHcp(enriched, g2, brands)
    ensures AggregateByHcp(enriched, g1, brands)[key] == AggregateByHcp(enriched, g2, brands)[key]
  {
    HcpKeyCarriesOver(enriched, g1, g2, brands, key);
    HcpGroupPermutation(enriched, g1, g2, brands, key);
    SummarizeHcpPermutation(HcpGroup(enriched, g1, brands, key), HcpGroup(enriched, g2, brands, key));
  }

  /** A key reached by some engagement is still reached once the engagements are reordered. */
  lemma HcpKeyCarriesOver(enriched: seq<EnrichedCampaign>, g1: seq<Engagement>, g2: seq<Engagement>, brands: seq<Brand>, key: (int, string))
    requires Unique(enriched, EnrichedCampaignId) && Unique(brands, BrandIdOf)
    requires multiset(g1) == multiset(g2) && key in AggregateByHcp(enriched, g1, brands)
    ensures key in AggregateByHcp(enriched, g2, brands)
  {
    assert exists h :: h in g1 && HcpKeyOfEngagement(enriched, brands, h) == Some(key) by {
      HcpKeysReached(enriched, g1, brands, key);
    }
    var h :| h in g1 && HcpKeyOfEngagement(enriched, brands, h) == Some(key);
    assert h in g2 by {
      assert h in multiset(g2);
    }
    HcpKeysReached(enriched, g2, brands, key);
  }

  /** Reordering the engagements only reorders the group of each (HCP, brand) key. */
  lemma HcpGroupPermutation(enriched: seq<EnrichedCampaign>, g1: seq<Engagement>, g2: seq<Engagement>, brands: seq<Brand>, key: (int, string))
    requires Unique(enriched, EnrichedCampaignId) && Unique(brands, BrandIdOf)
    requires multiset(g1) == multiset(g2)
    ensures multiset(HcpGroup(enriched, g1, brands, key)) == multiset(HcpGroup(enriched, g2, brands, key))
  {
    HcpGroupIsEngagementsOfKey(enriched, g1, brands, key);
    HcpGroupIsEngagementsOfKey(enriched, g2, brands, key);
    FilterPermutation(g1, g2, (h: Engagement) => HcpKeyOfEngagement(enriched, brands, h) == Some(key));
  }

  /** Every (HCP, brand) summary of one ordering of the engagements is one of the other. */
  lemma HcpEntriesCarryOver(enriched: seq<EnrichedCampaign>, g1: seq<Engagement>, g2: seq<Engagement>, brands: seq<Brand>)
    requires Unique(enriched, EnrichedCampaignId) && Unique(brands, BrandIdOf)
    requires multiset(g1) == multiset(g2)
    ensures Covers(AggregateByHcp(enriched, g1, brands), AggregateByHcp(enriched, g2, brands))
  {
    forall key | key in AggregateByHcp(enriched, g1, brands)
      ensures key in AggregateByHcp(enriched, g2, brands) &&
        AggregateByHcp(enriched, g1, brands)[key] == AggregateByHcp(enriched, g2, brands)[key]
    {
      HcpEntryIgnoresOrder(enriched, g1, g2, brands, key);
    }
  }

  /** With unique ids, the (HCP, brand) summary does not depend on the order of the cleaned engagements. */
  lemma HcpSummaryIgnoresEngagementOrder(enriched: seq<EnrichedCampaign>, g1: seq<Engagement>, g2: seq<Engagement>, brands: seq<Brand>)
    requires Unique(enriched, EnrichedCampaignId) && Unique(brands, BrandIdOf)
    requires multiset(g1) == multiset(g2)
    ensures AggregateByHcp(enriched, g1, brands) == AggregateByHcp(enriched, g2, brands)
  {
    HcpEntriesCarryOver(enriched, g1, g2, brands);
    HcpEntriesCarryOver(enriched, g2, g1, brands);
    SameEntries(AggregateByHcp(enriched, g1, brands), AggregateByHcp(enriched, g2, brands));
  }
}
