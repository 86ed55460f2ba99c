/**
 * The three row cleaners of the transform stage (scripts/transform.py,
 * _clean_campaigns, _clean_hcp_engagements, _clean_performance). Each is a
 * stable filter: it returns rows of its input, unchanged, in their order.
 */
module Cleaning {
  import opened Wrappers
  import opened Seqs
  import opened Tables

  /** The date parser raised: a date cell of a funded campaign is not a date. */
  datatype CleanError = UnparseableDate

  // ---------------------------------------------------------------------------
  // Campaigns
  // ---------------------------------------------------------------------------

  predicate BudgetPositive(c: Campaign)
  {
    c.plannedBudget > 0.0
  }

  predicate HasUnparseableDate(c: Campaign)
  {
    c.startDate.Unparseable? || c.endDate.Unparseable?
  }

  /**
   * start_date <= end_date on the parsed dates. An empty cell parses to NaT and
   * every comparison with NaT is false, so a campaign without an end date
   * (an ongoing one) fails this test.
   */
  predicate DatesOrdered(c: Campaign)
  {
    c.startDate.Day? && c.endDate.Day? && c.startDate.day <= c.endDate.day
  }

  /** The rows the campaign cleaner keeps. */
  predicate CampaignKept(c: Campaign)
  {
    BudgetPositive(c) && DatesOrdered(c)
  }

  /**
   * Keeps funded campaigns, parses both date columns of what is left (which
   * raises if a cell is not a date) and keeps the campaigns whose dates are
   * present and ordered.
   */
  function CleanCampaigns(campaigns: seq<Campaign>): (r: Result<seq<Campaign>, CleanError>)
    ensures r.Failure? <==> exists c :: c in campaigns && BudgetPositive(c) && HasUnparseableDate(c)
    ensures r.Success? ==> forall c :: c in r.value ==>
      c.plannedBudget > 0.0 && c.startDate.Day? && c.endDate.Day? && c.startDate.day <= c.endDate.day
    ensures r.Success? ==> forall c :: c in r.value <==> c in campaigns && CampaignKept(c)
    ensures r.Success? ==> forall c :: multiset(r.value)[c] == if CampaignKept(c) then multiset(campaigns)[c] else 0
    ensures r.Success? ==> Subsequence(r.value, campaigns)
  {
    var funded := Filter(campaigns, BudgetPositive);
    if exists c :: c in funded && HasUnparseableDate(c) then Failure(UnparseableDate)
    else
      FilterTwice(campaigns, BudgetPositive, DatesOrdered, CampaignKept);
      SubsequenceTransitive(Filter(funded, DatesOrdered), funded, campaigns);
      Success(Filter(funded, DatesOrdered))
  }

  /** When no funded row has an unparseable date, cleaning yields the funded rows whose dates are ordered. */
  lemma CleanCampaignsFromStages(campaigns: seq<Campaign>, funded: seq<Campaign>, kept: seq<Campaign>)
    requires Filter(campaigns, BudgetPositive) == funded
    requires forall c :: c in funded ==> !HasUnparseableDate(c)
    requires Filter(funded, DatesOrdered) == kept
    ensures CleanCampaigns(campaigns) == Success(kept)
  {
  }

  // ---------------------------------------------------------------------------
  // HCP engagements
  // ---------------------------------------------------------------------------

  predicate DurationNonNegative(h: Engagement)
  {
    h.durationSec >= 0
  }

  /**
   * Drops rows equal in every column to an earlier row (the first occurrence
   * stays), then drops rows with a negative duration.
   */
  function CleanEngagements(engagements: seq<Engagement>): (r: seq<Engagement>)
    ensures NoDuplicates(r)
    ensures forall h :: h in r <==> h in engagements && h.durationSec >= 0
    ensures Subsequence(r, engagements)
    ensures forall i, j :: 0 <= i < j < |r| ==> OccursBefore(engagements, r[i], r[j])
  {
    var unique := Dedup(engagements);
    FilterNoDuplicates(unique, DurationNonNegative);
    SubsequenceTransitive(Filter(unique, DurationNonNegative), unique, engagements);
    DedupKeepsFirstOccurrenceOrder(engagements);
    FilterKeepsPairwise(unique, DurationNonNegative, (x: Engagement, y: Engagement) => OccursBefore(engagements, x, y));
    Filter(unique, DurationNonNegative)
  }

  // ---------------------------------------------------------------------------
  // Channel performance
  // ---------------------------------------------------------------------------

  /** Clicks cannot exceed impressions and spend cannot be negative. */
  predicate PerformanceConsistent(p: Performance)
  {
    p.clicks <= p.impressions && p.spend >= 0.0
  }

  function CleanPerformance(performance: seq<Performance>): (r: seq<Performance>)
    ensures forall p :: p in r ==> p.clicks <= p.impressions && p.spend >= 0.0
    ensures forall p :: p in r <==> p in performance && PerformanceConsistent(p)
    ensures forall p :: multiset(r)[p] == if PerformanceConsistent(p) then multiset(performance)[p] else 0
    ensures Subsequence(r, performance)
  {
    Filter(performance, PerformanceConsistent)
  }
}
