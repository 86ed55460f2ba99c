/**
 * The enricher (scripts/transform.py, _enrich_campaign_features): per-campaign
 * performance totals joined onto the cleaned campaigns, the campaign duration
 * and two click-based KPIs guarded against division by zero.
 */
module Enrichment {
  import opened Wrappers
  import opened Seqs
  import opened Tables
  import opened Cleaning

  /** Spend, clicks and conversions summed over the performance rows of one campaign. */
  datatype Totals = Totals(spend: real, clicks: int, conversions: int)

  /**
   * A campaign row with the derived columns. totals is None when no performance
   * row carries the campaign's id: the left merge leaves NaN in all three columns.
   */
  datatype EnrichedCampaign = EnrichedCampaign(
    campaign: Campaign,
    durationDays: Option<int>,
    totals: Option<Totals>,
    costPerClick: real,
    conversionRate: real)

  function SpendOf(p: Performance): real { p.spend }
  function ClicksOf(p: Performance): int { p.clicks }
  function ConversionsOf(p: Performance): int { p.conversions }
  function ImpressionsOf(p: Performance): int { p.impressions }

  function TotalsOf(rows: seq<Performance>): Totals
  {
    Totals(SumReal(rows, SpendOf), SumInt(rows, ClicksOf), SumInt(rows, ConversionsOf))
  }

  /**
   * Performance grouped by campaign id and summed: an entry for exactly the ids
   * that occur, each holding the sums over the rows with that id. Rows whose
   * campaign id is empty are dropped by the grouping.
   */
  function PerformanceByCampaign(performance: seq<Performance>): (agg: map<int, Totals>)
    ensures forall id :: id in agg <==> exists p :: p in performance && p.campaignId == Some(id)
    ensures forall id :: id in agg ==> agg[id] == TotalsOf(Select(performance, PerformanceCampaignId, id))
  {
    var groups := Group(performance, PerformanceCampaignId);
    GroupIsSelect(performance, PerformanceCampaignId);
    map id | id in groups :: TotalsOf(groups[id])
  }

  /** (end_date - start_date) in whole days; NaN unless both dates are present. */
  function DurationDays(c: Campaign): (d: Option<int>)
    ensures d.Some? <==> c.startDate.Day? && c.endDate.Day?
    ensures d.Some? ==> c.startDate.day + d.value == c.endDate.day
  {
    if c.startDate.Day? && c.endDate.Day? then Some(c.endDate.day - c.startDate.day) else None
  }

  /** spend / clicks where clicks > 0, else 0; a NaN total compares false. */
  function CostPerClick(t: Option<Totals>): (cpc: real)
    ensures t.Some? && t.value.clicks > 0 ==> cpc * (t.value.clicks as real) == t.value.spend
    ensures t.None? || t.value.clicks <= 0 ==> cpc == 0.0
  {
    if t.Some? && t.value.clicks > 0 then t.value.spend / (t.value.clicks as real) else 0.0
  }

  /** conversions / clicks where clicks > 0, else 0. */
  function ConversionRate(t: Option<Totals>): (rate: real)
    ensures t.Some? && t.value.clicks > 0 ==> rate * (t.value.clicks as real) == t.value.conversions as real
    ensures t.None? || t.value.clicks <= 0 ==> rate == 0.0
  {
    if t.Some? && t.value.clicks > 0 then (t.value.conversions as real) / (t.value.clicks as real) else 0.0
  }

  /**
   * Where the campaign had clicks, cost per click times clicks is the spend and
   * conversion rate times clicks is the conversions; otherwise both KPIs are 0
   * (also when the campaign has no performance rows at all).
   */
  predicate KpisAreQuotients(e: EnrichedCampaign)
  {
    if e.totals.Some? && e.totals.value.clicks > 0 then
      e.costPerClick * (e.totals.value.clicks as real) == e.totals.value.spend &&
      e.conversionRate * (e.totals.value.clicks as real) == e.totals.value.conversions as real
    else
      e.costPerClick == 0.0 && e.conversionRate == 0.0
  }

  /** One campaign left-merged with the totals (which have one row per id) and given its derived columns. */
  function EnrichOne(c: Campaign, agg: map<int, Totals>): (e: EnrichedCampaign)
    ensures e.campaign == c
    ensures e.totals.Some? <==> c.campaignId.Some? && c.campaignId.value in agg
    ensures e.totals.Some? ==> e.totals.value == agg[c.campaignId.value]
    ensures KpisAreQuotients(e)
    ensures e.durationDays.Some? <==> c.startDate.Day? && c.endDate.Day?
    ensures e.durationDays.Some? ==> c.startDate.day + e.durationDays.value == c.endDate.day
  {
    var t := if c.campaignId.Some? && c.campaignId.value in agg then Some(agg[c.campaignId.value]) else None;
    EnrichedCampaign(c, DurationDays(c), t, CostPerClick(t), ConversionRate(t))
  }

  /**
   * One enriched row per campaign, in campaign order, with the campaign's own
   * columns unchanged; the totals are the sums over exactly the performance rows
   * carrying the campaign's id, and the KPIs are the guarded quotients.
   */
  function EnrichCampaigns(campaigns: seq<Campaign>, performance: seq<Performance>): (r: seq<EnrichedCampaign>)
    ensures |r| == |campaigns|
    ensures forall i :: 0 <= i < |r| ==> r[i].campaign == campaigns[i]
    ensures forall i :: 0 <= i < |r| ==>
      (r[i].totals.Some? <==>
        campaigns[i].campaignId.Some? && exists p :: p in performance && p.campaignId == campaigns[i].campaignId)
    ensures forall i :: 0 <= i < |r| && r[i].totals.Some? ==>
      r[i].totals.value == TotalsOf(Select(performance, PerformanceCampaignId, campaigns[i].campaignId.value))
    ensures forall i :: 0 <= i < |r| ==> KpisAreQuotients(r[i])
    ensures forall i :: 0 <= i < |r| ==>
      (r[i].durationDays.Some? <==> campaigns[i].startDate.Day? && campaigns[i].endDate.Day?)
    ensures forall i :: 0 <= i < |r| && r[i].durationDays.Some? ==>
      campaigns[i].startDate.day + r[i].durationDays.value == campaigns[i].endDate.day
  {
    var agg := PerformanceByCampaign(performance);
    var r := seq(|campaigns|, i requires 0 <= i < |campaigns| => EnrichOne(campaigns[i], agg));
    assert forall i :: 0 <= i < |r| ==> r[i] == EnrichOne(campaigns[i], agg);
    r
  }

  /** Every cleaned campaign gets a duration, and it is never negative. */
  lemma CleanedCampaignsHaveDuration(campaigns: seq<Campaign>, performance: seq<Performance>)
    requires CleanCampaigns(campaigns).Success?
    ensures forall e :: e in EnrichCampaigns(CleanCampaigns(campaigns).value, performance) ==>
      e.durationDays.Some? && e.durationDays.value >= 0
  {
    var cleaned := CleanCampaigns(campaigns).value;
    var r := EnrichCampaigns(cleaned, performance);
    forall e | e in r ensures e.durationDays.Some? && e.durationDays.value >= 0 {
      var i :| 0 <= i < |r| && r[i] == e;
      assert cleaned[i] in cleaned;
    }
  }

  /** The per-campaign totals do not depend on the order of the performance rows. */
  lemma TotalsIgnoreOrder(p1: seq<Performance>, p2: seq<Performance>, id: int)
    requires multiset(p1) == multiset(p2)
    ensures TotalsOf(Select(p1, PerformanceCampaignId, id)) == TotalsOf(Select(p2, PerformanceCampaignId, id))
  {
    var s1, s2 := Select(p1, PerformanceCampaignId, id), Select(p2, PerformanceCampaignId, id);
    SelectPermutation(p1, p2, PerformanceCampaignId, id);
    SumRealPermutation(s1, s2, SpendOf);
    SumIntPermutation(s1, s2, ClicksOf);
    SumIntPermutation(s1, s2, ConversionsOf);
  }

  /** Enrichment does not depend on the order of the performance rows. */
  lemma EnrichmentIgnoresPerformanceOrder(campaigns: seq<Campaign>, p1: seq<Performance>, p2: seq<Performance>)
    requires multiset(p1) == multiset(p2)
    ensures EnrichCampaigns(campaigns, p1) == EnrichCampaigns(campaigns, p2)
  {
    SameTotalsMap(p1, p2);
  }

  /** Reordered performance rows give the same per-campaign totals. */
  lemma SameTotalsMap(p1: seq<Performance>, p2: seq<Performance>)
    requires multiset(p1) == multiset(p2)
    ensures PerformanceByCampaign(p1) == PerformanceByCampaign(p2)
  {
    TotalsCarryOver(p1, p2);
    TotalsCarryOver(p2, p1);
    SameEntries(PerformanceByCampaign(p1), PerformanceByCampaign(p2));
  }

  /** Every id with totals keeps the same totals when the performance rows are reordered. */
  lemma TotalsCarryOver(p1: seq<Performance>, p2: seq<Performance>)
    requires multiset(p1) == multiset(p2)
    ensures Covers(PerformanceByCampaign(p1), PerformanceByCampaign(p2))
  {
    forall id | id in PerformanceByCampaign(p1)
      ensures id in PerformanceByCampaign(p2) && PerformanceByCampaign(p1)[id] == PerformanceByCampaign(p2)[id]
    {
      SameTotalsOfId(p1, p2, id);
    }
  }

  /** An id with totals keeps them, unchanged, when the performance rows are reordered. */
  lemma SameTotalsOfId(p1: seq<Performance>, p2: seq<Performance>, id: int)
    requires multiset(p1) == multiset(p2) && id in PerformanceByCampaign(p1)
    ensures id in PerformanceByCampaign(p2) && PerformanceByCampaign(p1)[id] == PerformanceByCampaign(p2)[id]
  {
    assert id in PerformanceByCampaign(p2) by {
      var p :| p in p1 && p.campaignId == Some(id);
      assert p in multiset(p2);
    }
    TotalsIgnoreOrder(p1, p2, id);
  }

  /** A performance row whose campaign id belongs to no campaign adds no row and changes no row. */
  lemma OrphanPerformanceChangesNothing(campaigns: seq<Campaign>, performance: seq<Performance>, orphan: Performance)
    requires forall c :: c in campaigns ==> c.campaignId != orphan.campaignId
    ensures EnrichCampaigns(campaigns, performance + [orphan]) == EnrichCampaigns(campaigns, performance)
  {
    var a1, a2 := PerformanceByCampaign(performance + [orphan]), PerformanceByCampaign(performance);
    var r1, r2 := EnrichCampaigns(campaigns, performance + [orphan]), EnrichCampaigns(campaigns, performance);
    forall i | 0 <= i < |campaigns| ensures r1[i] == r2[i] {
      var c := campaigns[i];
      assert c in campaigns;
      if c.campaignId.Some? {
        var id := c.campaignId.value;
        assert (id in a1) == (id in a2) by {
          assert forall p :: p in performance + [orphan] <==> p in performance || p == orphan;
        }
        if id in a1 {
          SelectSnoc(performance, orphan, PerformanceCampaignId, id);
        }
      }
    }
  }

  /** A campaign alone, whose id has totals with clicks, gets those totals and the quotient KPIs. */
  lemma EnrichSingle(campaigns: seq<Campaign>, performance: seq<Performance>, id: int, t: Totals)
    requires |campaigns| == 1 && campaigns[0].campaignId == Some(id) && id in PerformanceByCampaign(performance)
    requires PerformanceByCampaign(performance)[id] == t && t.clicks > 0
    ensures var r := EnrichCampaigns(campaigns, performance);
      |r| == 1 && r[0] ==
      EnrichedCampaign(campaigns[0], DurationDays(campaigns[0]), Some(t), t.spend / (t.clicks as real), (t.conversions as real) / (t.clicks as real))
  {
    assert EnrichCampaigns(campaigns, performance)[0] == EnrichOne(campaigns[0], PerformanceByCampaign(performance));
  }
}
