/**
 * The transformation test fixture (tests/test_transform.py): three campaigns,
 * three performance rows, three engagement rows, two brands and two channels,
 * with the outcomes the tests assert worked out on the model. Dates are day
 * numbers counted from 1970-01-01 (2023-01-01 is day 19358). Columns the
 * fixture does not write are empty strings.
 */
module Fixture {
  import opened Wrappers
  import opened Seqs
  import opened Tables
  import opened Cleaning
  import opened Enrichment
  import opened Aggregation
  import opened TransformStage

  const Jan1: int := 19358
  const Jan10: int := 19367
  const Feb1: int := 19389

  /** Valid, funded, dated. */
  const ValidCampaign := Campaign(Some(1), Some(101), Some(10), "Valid Camp", Day(Jan1), Day(Jan10), "active", 1000.0)
  /** No budget. */
  const ZeroBudgetCampaign := Campaign(Some(2), Some(101), Some(20), "Zero Budget Camp", Day(Jan1), Day(Jan10), "planned", 0.0)
  /** Ends before it starts. */
  const BadDatesCampaign := Campaign(Some(3), Some(102), Some(10), "Bad Dates Camp", Day(Feb1), Day(Jan1), "active", 5000.0)

  const Campaigns: seq<Campaign> := [ValidCampaign, ZeroBudgetCampaign, BadDatesCampaign]

  const Perf1 := Performance(Some(1), Some(1), 1000, 10, 2, 100.0)
  const Perf2 := Performance(Some(2), Some(1), 1000, 0, 0, 50.0)
  /** Belongs to no campaign. */
  const Perf3 := Performance(Some(3), Some(99), 500, 5, 1, 20.0)

  const PerformanceRows: seq<Performance> := [Perf1, Perf2, Perf3]

  const Visit := Engagement(Some(1), Some(1), Some(50), "", "", 120)
  const NegativeVisit := Engagement(Some(2), Some(1), Some(51), "", "", -10)

  /** The first row repeated, then a negative duration. */
  const Engagements: seq<Engagement> := [Visit, Visit, NegativeVisit]

  const Brands: seq<Brand> := [Brand(Some(101), Some("Brand A"), "", 0, ""), Brand(Some(102), Some("Brand B"), "", 0, "")]
  const Channels: seq<Channel> := [Channel(Some(10), Some("Email"), ""), Channel(Some(20), Some("Web"), "")]

  /** The funded campaigns: 1 and 3. */
  const FundedRows: seq<Campaign> := [ValidCampaign, BadDatesCampaign]

  /** The budget filter drops campaign 2. */
  lemma FundedCampaigns()
    ensures Filter(Campaigns, BudgetPositive) == FundedRows
  {
    FilterOfThree(Campaigns, BudgetPositive);
  }

  /** Both funded campaigns have parsed dates. */
  lemma FundedRowsParse()
    ensures forall c :: c in FundedRows ==> !HasUnparseableDate(c)
  {
  }

  /** Campaign 3 ends before it starts. */
  lemma FundedRowsOrdered()
    ensures Filter(FundedRows, DatesOrdered) == [ValidCampaign]
  {
    FilterOfTwo(FundedRows, DatesOrdered);
  }

  /** Only campaign 1 survives: campaign 2 has no budget and campaign 3 ends before it starts. */
  lemma FixtureCampaignCleaning()
    ensures CleanCampaigns(Campaigns) == Success([ValidCampaign])
  {
    FundedCampaigns();
    FundedRowsParse();
    FundedRowsOrdered();
    CleanCampaignsFromStages(Campaigns, FundedRows, [ValidCampaign]);
  }

  /** The repeated row is dropped and so is the negative duration: one row of 120 seconds is left. */
  lemma FixtureEngagementCleaning()
    ensures CleanEngagements(Engagements) == [Visit]
  {
    DedupSnoc([], Visit);
    assert [] + [Visit] == [Visit];
    DedupSnoc([Visit], Visit);
    assert [Visit] + [Visit] == [Visit, Visit];
    DedupSnoc([Visit, Visit], NegativeVisit);
    assert [Visit, Visit] + [NegativeVisit] == Engagements;
    assert Dedup(Engagements) == [Visit, NegativeVisit];
    FilterOfTwo([Visit, NegativeVisit], DurationNonNegative);
  }

  /** Every fixture performance row is consistent, so the cleaner keeps all three. */
  lemma FixturePerformanceCleaning()
    ensures CleanPerformance(PerformanceRows) == PerformanceRows
  {
    FilterOfThree(PerformanceRows, PerformanceConsistent);
  }

  /** Campaign 1 with the totals of rows 1 and 2 and its derived columns. */
  const EnrichedValid := EnrichedCampaign(ValidCampaign, Some(9), Some(Totals(150.0, 10, 2)), 15.0, 0.2)

  /** Rows 1 and 2 carry campaign id 1. */
  lemma RowsOfCampaignOne()
    ensures Select(PerformanceRows, PerformanceCampaignId, 1) == [Perf1, Perf2]
  {
    SelectOfThree(PerformanceRows, PerformanceCampaignId, 1);
  }

  /**
   * Campaign 1 sums rows 1 and 2 (spend 150, clicks 10, conversions 2), so its
   * cost per click is 15.0 and its conversion rate 0.2; it runs 9 days. Row 3
   * belongs to no campaign and adds no row.
   */
  lemma FixtureEnrichment(campaigns: seq<Campaign>, performance: seq<Performance>)
    requires campaigns == [ValidCampaign] && performance == PerformanceRows
    ensures var r := EnrichCampaigns(campaigns, performance);
      |r| == 1 && r[0].campaign == ValidCampaign && r[0].totals == Some(Totals(150.0, 10, 2)) &&
      r[0].costPerClick == 15.0 && r[0].conversionRate == 0.2 && r[0].durationDays == Some(9)
  {
    CampaignOneAggregate(performance);
    EnrichSingle(campaigns, performance, 1, Totals(150.0, 10, 2));
    CampaignOneKpis(Totals(150.0, 10, 2));
  }

  /** The enriched campaign table of the fixture is the single row EnrichedValid. */
  lemma FixtureEnrichedRow(campaigns: seq<Campaign>, performance: seq<Performance>)
    requires campaigns == [ValidCampaign] && performance == PerformanceRows
    ensures EnrichCampaigns(campaigns, performance) == [EnrichedValid]
  {
    FixtureEnrichment(campaigns, performance);
    RowIsEnrichedValid(EnrichCampaigns(campaigns, performance));
  }

  /** A one-row table with the fields of EnrichedValid is [EnrichedValid]. */
  lemma RowIsEnrichedValid(r: seq<EnrichedCampaign>)
    requires |r| == 1 && r[0].campaign == ValidCampaign && r[0].totals == Some(Totals(150.0, 10, 2))
    requires r[0].costPerClick == 15.0 && r[0].conversionRate == 0.2 && r[0].durationDays == Some(9)
    ensures r == [EnrichedValid]
  {
    assert r == [r[0]];
  }

  /** 150 / 10 is 15 and 2 / 10 is 0.2. */
  lemma CampaignOneKpis(t: Totals)
    requires t == Totals(150.0, 10, 2)
    ensures t.spend / (t.clicks as real) == 15.0 && (t.conversions as real) / (t.clicks as real) == 0.2
  {
    assert t.clicks as real == 10.0 && t.conversions as real == 2.0;
  }

  /** The per-campaign totals of the fixture hold campaign 1 with spend 150, clicks 10, conversions 2. */
  lemma CampaignOneAggregate(performance: seq<Performance>)
    requires performance == PerformanceRows
    ensures 1 in PerformanceByCampaign(performance)
    ensures PerformanceByCampaign(performance)[1] == Totals(150.0, 10, 2)
  {
    CampaignOneTotals(performance);
    assert performance[0] in performance && performance[0].campaignId == Some(1);
  }

  /** Campaign 1's totals: spend 150, clicks 10, conversions 2. */
  lemma CampaignOneTotals(performance: seq<Performance>)
    requires performance == PerformanceRows
    ensures TotalsOf(Select(performance, PerformanceCampaignId, 1)) == Totals(150.0, 10, 2)
  {
    RowsOfCampaignOne();
    FirstTwoSums(performance);
    assert performance[..2] == [Perf1, Perf2];
  }

  /** Sums over rows 1 and 2. */
  lemma FirstTwoSums(performance: seq<Performance>)
    requires performance == PerformanceRows
    ensures var mine := performance[..2];
      SumInt(mine, ImpressionsOf) == 2000 && SumInt(mine, ClicksOf) == 10 &&
      SumReal(mine, SpendOf) == 150.0 && SumInt(mine, ConversionsOf) == 2
  {
    var mine := performance[..2];
    SumsOfTwo(mine, ImpressionsOf, SpendOf);
    SumsOfTwo(mine, ClicksOf, SpendOf);
    SumsOfTwo(mine, ConversionsOf, SpendOf);
  }

  /** Rows 1 and 2 reach the Email channel through campaign 1; row 3 reaches no channel. */
  lemma RowChannels(enriched: seq<EnrichedCampaign>, performance: seq<Performance>, channels: seq<Channel>)
    requires enriched == [EnrichedValid] && performance == PerformanceRows && channels == Channels
    ensures ChannelOfPerformance(enriched, channels, performance[0]) == Some("Email")
    ensures ChannelOfPerformance(enriched, channels, performance[1]) == Some("Email")
    ensures ChannelOfPerformance(enriched, channels, performance[2]) == None
  {
    FixtureIdsUnique();
    ChannelThroughCampaign(enriched, channels, performance[0], enriched[0], channels[0]);
    ChannelThroughCampaign(enriched, channels, performance[1], enriched[0], channels[0]);
    assert Lookup(enriched, EnrichedCampaignId, performance[2].campaignId) == None;
  }

  /** The Email rows are the first two. */
  lemma EmailRows(enriched: seq<EnrichedCampaign>, performance: seq<Performance>, channels: seq<Channel>)
    requires enriched == [EnrichedValid] && performance == PerformanceRows && channels == Channels
    ensures Filter(performance, (p: Performance) => ChannelOfPerformance(enriched, channels, p) == Some("Email")) ==
      performance[..2]
  {
    RowChannels(enriched, performance, channels);
    FilterFirstTwo(performance, (p: Performance) => ChannelOfPerformance(enriched, channels, p) == Some("Email"));
  }

  /**
   * The Email channel sums rows 1 and 2 (impressions 2000, clicks 10, spend
   * 150, conversions 2); Web is reached by no performance row and has no
   * summary row.
   */
  lemma FixtureEmailChannel()
    ensures var agg := AggregateByChannel([EnrichedValid], PerformanceRows, Channels);
      "Email" in agg && "Web" !in agg &&
      agg["Email"].totalImpressions == 2000 && agg["Email"].totalClicks == 10 &&
      agg["Email"].totalSpend == 150.0 && agg["Email"].totalConversions == 2
  {
    EmailReached([EnrichedValid], PerformanceRows, Channels);
    EmailRows([EnrichedValid], PerformanceRows, Channels);
    FirstTwoSums(PerformanceRows);
    FixtureIdsUnique();
    TotalsOverRows([EnrichedValid], PerformanceRows, Channels, "Email", PerformanceRows[..2]);
  }

  lemma FixtureIdsUnique()
    ensures Unique([EnrichedValid], EnrichedCampaignId) && Unique(Channels, ChannelIdOf)
  {
  }

  /** Email has a summary row and Web has none. */
  lemma EmailReached(enriched: seq<EnrichedCampaign>, performance: seq<Performance>, channels: seq<Channel>)
    requires enriched == [EnrichedValid] && performance == PerformanceRows && channels == Channels
    ensures "Email" in AggregateByChannel(enriched, performance, channels)
    ensures "Web" !in AggregateByChannel(enriched, performance, channels)
  {
    FixtureIdsUnique();
    EmailOnly(enriched, performance, channels);
    ChannelNamesReached(enriched, performance, channels, "Email");
    ChannelNamesReached(enriched, performance, channels, "Web");
  }

  /** Row 1 reaches Email, and no row reaches Web. */
  lemma EmailOnly(enriched: seq<EnrichedCampaign>, performance: seq<Performance>, channels: seq<Channel>)
    requires enriched == [EnrichedValid] && performance == PerformanceRows && channels == Channels
    ensures ChannelOfPerformance(enriched, channels, performance[0]) == Some("Email")
    ensures forall p :: p in performance ==> ChannelOfPerformance(enriched, channels, p) != Some("Web")
  {
    RowChannels(enriched, performance, channels);
    forall p | p in performance ensures ChannelOfPerformance(enriched, channels, p) != Some("Web") {
      InThree(performance, p);
    }
  }

  /** The staging directory of the fixture: the five files, each holding its table. */
  const Staged: Staging := map[
    "campaigns.csv" := CampaignsFile(Campaigns),
    "hcp_engagements.csv" := EngagementsFile(Engagements),
    "channel_performance.csv" := PerformanceFile(PerformanceRows),
    "brands.csv" := BrandsFile(Brands),
    "channels.csv" := ChannelsFile(Channels)]

  /** Loading the fixture succeeds and reads every table from its own file. */
  lemma FixtureTables(staging: Staging)
    requires staging == Staged
    ensures AllStaged(staging, Manifest)
    ensures var t := StagedTables(staging, Manifest);
      CampaignsOf(t) == Success(Campaigns) && EngagementsOf(t) == Success(Engagements) &&
      PerformanceOf(t) == Success(PerformanceRows) && BrandsOf(t) == Success(Brands) && ChannelsOf(t) == Success(Channels)
  {
    StagedInputs(staging);
  }

  /** The stages run on the fixture tables: campaign 1 enriched, one engagement, and the channel summary of EnrichedValid. */
  lemma FixtureRunStages(t: map<string, RawTable>)
    requires CampaignsOf(t) == Success(Campaigns) && EngagementsOf(t) == Success(Engagements)
    requires PerformanceOf(t) == Success(PerformanceRows) && BrandsOf(t) == Success(Brands) && ChannelsOf(t) == Success(Channels)
    ensures RunStages(t).Success?
    ensures RunStages(t).value.factCampaignPerformance == [EnrichedValid]
    ensures RunStages(t).value.factHcpEngagement == [Visit]
    ensures RunStages(t).value.aggChannelEffectiveness == AggregateByChannel([EnrichedValid], PerformanceRows, Channels)
  {
    FixtureCampaignCleaning();
    FixturePerformanceCleaning();
    FixtureEngagementCleaning();
    FixtureEnrichedRow([ValidCampaign], PerformanceRows);
  }

  /**
   * transform_data on the fixture: the campaign facts are campaign 1 alone,
   * the engagement facts one row of 120 seconds, and the channel summary
   * gives Email impressions 2000, clicks 10, spend 150 and conversions 2.
   */
  lemma FixtureTransform(staging: Staging)
    requires staging == Staged
    ensures var out := Transform(staging);
      out != map[] &&
      out[FactCampaignPerformance] == CampaignFacts([EnrichedValid]) &&
      out[FactHcpEngagement] == EngagementFacts([Visit]) &&
      out[AggChannelEffectiveness] == ChannelTable(AggregateByChannel([EnrichedValid], PerformanceRows, Channels))
  {
    FixtureTables(staging);
    StagedFixtureTransform(staging, StagedTables(staging, Manifest));
  }

  /** Once the fixture tables are loaded, transform_data packages the outcome of FixtureRunStages. */
  lemma StagedFixtureTransform(staging: Staging, t: map<string, RawTable>)
    requires AllStaged(staging, Manifest) && t == StagedTables(staging, Manifest)
    requires CampaignsOf(t) == Success(Campaigns) && EngagementsOf(t) == Success(Engagements)
    requires PerformanceOf(t) == Success(PerformanceRows) && BrandsOf(t) == Success(Brands) && ChannelsOf(t) == Success(Channels)
    ensures var out := Transform(staging);
      out != map[] &&
      out[FactCampaignPerformance] == CampaignFacts([EnrichedValid]) &&
      out[FactHcpEngagement] == EngagementFacts([Visit]) &&
      out[AggChannelEffectiveness] == ChannelTable(AggregateByChannel([EnrichedValid], PerformanceRows, Channels))
  {
    FixtureRunStages(t);
    PackagedRun(staging, t);
  }

  /** When every file is staged and the stages succeed, transform_data packages their output. */
  lemma PackagedRun(staging: Staging, t: map<string, RawTable>)
    requires AllStaged(staging, Manifest) && t == StagedTables(staging, Manifest) && RunStages(t).Success?
    ensures Transform(staging) == Package(RunStages(t).value)
  {
  }

  /** The Email summary of transform_data's output carries the totals the fixture expects. */
  lemma FixtureTransformEmail(staging: Staging)
    requires staging == Staged
    ensures AggChannelEffectiveness in Transform(staging)
    ensures var agg := Transform(staging)[AggChannelEffectiveness].channelRows;
      "Email" in agg && "Web" !in agg &&
      agg["Email"].totalImpressions == 2000 && agg["Email"].totalClicks == 10 &&
      agg["Email"].totalSpend == 150.0 && agg["Email"].totalConversions == 2
  {
    FixtureTransform(staging);
    FixtureEmailChannel();
  }
}
