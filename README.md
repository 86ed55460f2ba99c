# Pharma marketing ETL: the transform stage and its quality verdict

This project models the transform stage of a small pharmaceutical-marketing
ETL pipeline (`scripts/transform.py`) and the data-quality verdict that follows
it (`scripts/validation.py`), and proves what the pipeline promises about its
output tables.

The transform stage reads five staged CSV files: campaigns, HCP engagements
(interactions of healthcare professionals with a campaign), channel
performance, brands and channels. It then works in four steps:

- It cleans three of the tables. Campaigns keep a positive planned budget and a
  start date on or before the end date. Engagements lose full-row duplicates
  and negative durations. Performance rows keep `clicks <= impressions` and a
  non-negative spend.
- It enriches every cleaned campaign with the spend, clicks and conversions
  summed over its performance rows. It adds the duration in days and two
  zero-guarded KPIs: cost per click and conversion rate.
- It builds three summaries behind join chains: per brand name, per channel
  name (with unguarded CTR and average cost per click), and per
  (HCP id, brand name).
- It returns the five output tables by name, or an empty map if any file is
  missing or any step raised.

The validator then checks the tables. Null primary keys, campaigns whose brand
is unknown and engagements of zero or negative duration are fatal. Invalid
status or channel-type values and a CTR outside [0, 1] only warn.

Modelling choices:

- Tables are sequences of row datatypes (`Tables`).
- Identifier cells are `Option<int>`, where `None` is the NaN an empty cell
  becomes. Brand and channel names are grouping keys, so they are
  `Option<string>` too: a groupby drops a row whose name is NaN.
- Dates are day numbers. An unparseable date is its own case, which makes the
  date conversion raise.
- pandas' boolean-mask selection, `drop_duplicates`, `merge(how='left')` and
  `groupby` are restated as explicit sequence functions (`Seqs`). A merge pairs
  equal keys, so NaN meets NaN as it does in pandas; a groupby drops NaN keys.
- Grouped results are maps keyed by the group key. Because each entry is sums,
  counts and means over its group, the enrichment and, with unique ids, all
  three summaries are proved not to depend on the order of their input rows.
- Money, KPIs and quotients are exact reals. An unguarded division is a
  `Quotient`, which is finite, an infinity or NaN, following IEEE division by
  zero.
- `_load_data` and `validate_data` work by updating a dictionary or a flag in a
  loop, so they are methods (`TransformStage.LoadData`,
  `Validation.CheckPrimaryKeys`, `Validation.ValidateData`). Each is proved
  equal to a specification function, and the properties are lemmas about that
  function.
- The fixture of `tests/test_transform.py` is worked through on the model
  (`Fixture`).

Where the comments and the code disagree, the model follows the code:

- A campaign with no end date is dropped by the cleaner: NaT compares false.
- The channel CTR and average cost per click have no zero guard.
- `validate_data` applied to the empty result of a failed transform does not
  reach a verdict. Its null-key loop still runs: it skips the two absent fact
  tables and checks the brands table. Then the status check
  (scripts/validation.py:52) subscripts the absent campaigns frame, which is
  `None`, and raises a TypeError. The model reports this as `TableMissing`.

Two properties of the code stand out:

- The cleaner keeps engagements of duration 0, but the validator rejects them
  (`Validation.ZeroDurationPassesCleaningFailsValidation`).
- On any output of the transform stage, the CTR warning can never fire when
  no staged performance row has negative clicks
  (`Validation.CtrWarningNeverFiresOnTransform`). The performance cleaner does
  not reject negative clicks, so such a row can still push a CTR below 0.

## Model

| member | source | states |
|---|---|---|
| Seqs.Filter | scripts/transform.py:59-60 | a boolean-mask selection keeps exactly the rows satisfying the mask, each as often as in the input, as a subsequence (order kept) |
| Seqs.FilterTwice | scripts/transform.py:42-50 | filtering by budget and then by date order equals one filter by the conjunction |
| Seqs.Dedup | scripts/transform.py:54 | `drop_duplicates` keeps the same set of rows, no row twice, as a subsequence of the input |
| Seqs.DedupKeepsFirstOccurrenceOrder | scripts/transform.py:54 | the kept rows appear in the order of their first occurrences |
| Seqs.LeftJoin | scripts/transform.py:74 | a left merge yields at least one row per left row, and every left row appears in it; an unmatched left row appears paired with None; every pair comes from the left table and a right row with the same key, and a left row is unmatched only when no right row has its key |
| Seqs.LeftJoinUnique | scripts/transform.py:74 | when right keys are unique, the merge is exactly one row per left row, in order, paired with the lookup of its key |
| Seqs.LeftJoinComplete | scripts/transform.py:110-111 | every left row with a matching right row appears in the merge paired with that row |
| Seqs.Select | scripts/transform.py:71 | a group holds exactly the rows whose key equals the group key, each as often as in the input |
| Seqs.GroupIsSelect | scripts/transform.py:71 | `groupby` has one non-empty group per non-NaN key that occurs, and that group is the selection of its key |
| Seqs.Group | scripts/transform.py:71 | the one-pass `groupby`; it has no ensures of its own, and `Seqs.GroupIsSelect` proves that it holds one non-empty group per non-NaN key present, equal to that key's `Select` |
| Seqs.SelectPermutation | scripts/transform.py:71 | reordering the rows reorders each group without changing its contents |
| Seqs.SumIntPermutation | scripts/transform.py:71 | an integer column sum does not depend on row order |
| Seqs.SumRealPermutation | scripts/transform.py:71 | a real column sum does not depend on row order |
| Seqs.CountIsSum | scripts/transform.py:102 | a `count` is the sum of the column that is 1 where the row counts and 0 elsewhere |
| Seqs.CountPermutation | scripts/transform.py:102 | a `count` does not depend on row order |
| Seqs.MeanPermutation | scripts/transform.py:105 | a `mean` does not depend on row order |
| Seqs.FilterPermutation | scripts/transform.py:101 | reordering the rows reorders the rows a mask keeps without changing them |
| Seqs.FilterNonEmpty | scripts/transform.py:101 | a mask keeps some row exactly when some row satisfies it |
| Seqs.SelectNonEmpty | scripts/transform.py:101 | a group key selects some row exactly when some row carries that key |
| Seqs.SameEntries | scripts/transform.py:101-106 | two summary tables, keyed by group, each of whose entries is an entry of the other are equal |
| Seqs.SumIntMonotone | scripts/transform.py:114-115 | summing a column that is row by row no larger gives a sum no larger |
| Seqs.JoinSelect | scripts/transform.py:110-113 | grouping a merge with unique right keys and keeping the left rows gives the left rows whose looked-up key is the group key |
| Seqs.JoinFilter | scripts/transform.py:125-126 | filtering a merge with unique right keys and keeping the left rows filters the left table by the looked-up predicate |
| Seqs.LookupFound | scripts/transform.py:111 | with unique right keys, looking up a row's own key finds that row |
| Seqs.Count | scripts/transform.py:102 | a `count` is at most the number of rows |
| Cleaning.CleanCampaigns | scripts/transform.py:40-50 | fails exactly when a funded row has an unparseable date; otherwise keeps exactly the rows with budget > 0 and both dates present and ordered, with their multiplicities, as a subsequence |
| Cleaning.CleanEngagements | scripts/transform.py:52-55 | no two equal rows, exactly the input rows with duration >= 0, a subsequence in first-occurrence order |
| Cleaning.CleanPerformance | scripts/transform.py:57-60 | exactly the rows with clicks <= impressions and spend >= 0, with their multiplicities, as a subsequence |
| Enrichment.PerformanceByCampaign | scripts/transform.py:71 | one entry per campaign id that occurs in the performance rows, holding the sums over that id's rows |
| Enrichment.TotalsOf | scripts/transform.py:71 | the spend, clicks and conversions sums of a list of rows; it has no ensures of its own: `Enrichment.PerformanceByCampaign` applies it to each id's rows and `Enrichment.TotalsIgnoreOrder` proves the sums ignore row order |
| Enrichment.DurationDays | scripts/transform.py:66-68 | the duration is defined exactly when both dates are present (NaN otherwise), and then the start date plus the duration is the end date |
| Enrichment.CostPerClick | scripts/transform.py:77-81 | where the totals have clicks > 0, cost per click times clicks is the spend; with no totals (NaN compares false) or no clicks it is 0 |
| Enrichment.ConversionRate | scripts/transform.py:82-86 | where the totals have clicks > 0, conversion rate times clicks is the conversions; with no totals (NaN compares false) or no clicks it is 0 |
| Enrichment.EnrichOne | scripts/transform.py:66-86 | the campaign is unchanged; it has totals exactly when its id has performance rows; the KPIs are spend/clicks and conversions/clicks when clicks > 0 and 0 otherwise; the duration is end minus start when both dates are present |
| Enrichment.EnrichCampaigns | scripts/transform.py:62-88 | one row per campaign in order, the campaign unchanged, totals equal to the sums over its performance rows, zero-guarded KPIs, duration end minus start |
| Enrichment.CleanedCampaignsHaveDuration | scripts/transform.py:66-68 | every campaign surviving the cleaner gets a defined, non-negative duration |
| Enrichment.TotalsIgnoreOrder | scripts/transform.py:71 | a campaign's totals do not depend on the order of the performance rows |
| Enrichment.EnrichmentIgnoresPerformanceOrder | scripts/transform.py:71-74 | the enriched table does not depend on the order of the performance rows |
| Enrichment.OrphanPerformanceChangesNothing | scripts/transform.py:71-74 | a performance row of a campaign id no campaign has changes no enriched row and adds none |
| Enrichment.EnrichSingle | scripts/transform.py:74-86 | (fixture helper) a lone campaign whose id has totals with clicks gets exactly those totals and the two quotient KPIs |
| Aggregation.Divide | scripts/transform.py:121-122 | an unguarded division is finite exactly when the denominator is non-zero, and is then the exact quotient; x/0 is +inf exactly when x > 0 and -inf exactly when x < 0; it is NaN exactly for 0/0 |
| Aggregation.BrandJoin | scripts/transform.py:100 | the left merge of the enriched campaigns with the brands on brand_id; no ensures of its own: its rows are described by `Seqs.LeftJoin`, and `Aggregation.BrandNameInJoin` says which brand names it reaches |
| Aggregation.SummarizeBrand | scripts/transform.py:101-106 | count of campaign ids, spend and conversion sums and mean conversion rate of one group; no ensures of its own: `Aggregation.BrandTotals` proves it is applied to exactly the brand's own non-empty campaign list, with the count bounded by that list |
| Aggregation.AggregateByBrand | scripts/transform.py:99-106 | one summary per brand name reached by the campaign-to-brand merge, summarising that name's non-empty group |
| Aggregation.BrandNames | scripts/transform.py:100-101 | a brand name has a summary exactly when some enriched campaign's brand id equals a brand with that name |
| Aggregation.BrandNameInJoin | scripts/transform.py:100-101 | a brand name occurs in the merge exactly when a campaign and a brand with that name share a brand id |
| Aggregation.BrandGroupIsCampaignsOfBrand | scripts/transform.py:100-101 | with unique brand ids, a brand's group is the enriched campaigns whose brand has that name, in order |
| Aggregation.BrandTotals | scripts/transform.py:101-105 | with unique brand ids, a brand's summary is computed over its own campaigns, and its campaign count is at most their number |
| Aggregation.SummarizeBrandPermutation | scripts/transform.py:101-106 | a brand's count, sums and mean do not depend on the order of its campaigns |
| Aggregation.BrandNameCarriesOver | scripts/transform.py:100-101 | a brand name with a summary keeps it when the campaigns are reordered |
| Aggregation.BrandGroupPermutation | scripts/transform.py:100-101 | with unique brand ids, reordering the campaigns only reorders each brand's group |
| Aggregation.BrandEntryIgnoresOrder | scripts/transform.py:99-106 | with unique brand ids, a brand's summary is the same after the campaigns are reordered |
| Aggregation.BrandEntriesCarryOver | scripts/transform.py:99-106 | with unique brand ids, every brand summary of one campaign order is a brand summary of the other |
| Aggregation.BrandSummaryIgnoresCampaignOrder | scripts/transform.py:99-106 | with unique brand ids, the brand performance table does not depend on the order of the enriched campaigns |
| Aggregation.AggregateByChannel | scripts/transform.py:108-122 | one summary per channel name reached by the performance-to-campaign-to-channel merges, summarising that name's group |
| Aggregation.ChannelJoin | scripts/transform.py:110-111 | performance left-merged with the campaigns on campaign_id and then with the channels on channel_id; no ensures of its own: `Aggregation.ChannelThroughCampaign` and `Aggregation.ChannelGroupRowsHaveCampaign` say which channel a row reaches |
| Aggregation.SummarizeChannel | scripts/transform.py:113-122 | the four sums and the two unguarded quotients of one group; no ensures of its own: `Aggregation.ChannelTotals` proves the sums are over the rows reaching the channel and `Aggregation.ChannelKpis` states the quotients |
| Aggregation.ChannelGroupRowsArePerformanceRows | scripts/transform.py:110-113 | every row summarised under a channel is a cleaned performance row |
| Aggregation.ChannelGroupRowsHaveCampaign | scripts/transform.py:110-111 | when channel ids are present, every row summarised under a channel belongs to an enriched campaign, so orphaned rows are excluded |
| Aggregation.ChannelClicksWithinImpressions | scripts/transform.py:113-118 | over cleaned performance rows, each channel's total clicks are at most its total impressions |
| Aggregation.ChannelKpis | scripts/transform.py:121-122 | CTR is the unguarded division of the channel's total clicks by its total impressions, and average CPC that of its total spend by its total clicks, so each is the exact quotient for a non-zero denominator and +inf, -inf or NaN by the sign of the numerator for a zero one |
| Aggregation.CtrWithinUnitRange | scripts/transform.py:121 | over cleaned rows with non-negative clicks, every CTR is NaN or a finite value in [0, 1] |
| Aggregation.ChannelThroughCampaign | scripts/transform.py:110-111 | a row whose campaign is enriched reaches that campaign's channel |
| Aggregation.ChannelGroupIsRowsOfChannel | scripts/transform.py:110-113 | with unique campaign and channel ids, a channel's group is the performance rows reaching that channel, in order |
| Aggregation.ChannelNamesReached | scripts/transform.py:110-113 | with unique ids, a channel name has a summary exactly when some performance row reaches it |
| Aggregation.ChannelTotals | scripts/transform.py:113-118 | with unique ids, a channel's four totals are the sums over the performance rows reaching it |
| Aggregation.SummarizeChannelPermutation | scripts/transform.py:113-122 | a channel's four sums and two quotients do not depend on the order of its rows |
| Aggregation.ChannelNameCarriesOver | scripts/transform.py:110-113 | with unique ids, a channel name with a summary keeps it when the performance rows are reordered |
| Aggregation.ChannelGroupPermutation | scripts/transform.py:110-113 | with unique ids, reordering the performance rows only reorders each channel's group |
| Aggregation.ChannelEntryIgnoresOrder | scripts/transform.py:108-122 | with unique ids, a channel's summary is the same after the performance rows are reordered |
| Aggregation.ChannelEntriesCarryOver | scripts/transform.py:108-122 | with unique ids, every channel summary of one row order is a channel summary of the other |
| Aggregation.ChannelSummaryIgnoresPerformanceOrder | scripts/transform.py:108-122 | with unique ids, the channel effectiveness table does not depend on the order of the cleaned performance rows |
| Aggregation.TotalsOverRows | scripts/transform.py:113-118 | (fixture helper) a channel's totals are the sums over any row list known to be its rows |
| Aggregation.AggregateByHcp | scripts/transform.py:124-131 | one summary per (HCP id, brand name) reached by the engagement-to-campaign-to-brand merges, summarising that key's non-empty group |
| Aggregation.HcpJoin | scripts/transform.py:125-126 | engagements left-merged with the campaigns on campaign_id and then with the brands on brand_id; no ensures of its own: `Aggregation.UnlinkedEngagementFallsOut` and `Aggregation.HcpGroupIsEngagementsOfKey` say which key a row reaches |
| Aggregation.SummarizeHcp | scripts/transform.py:128-131 | count of engagement ids and mean duration of one group; no ensures of its own: `Aggregation.HcpTotals` proves it is applied to exactly the key's own non-empty engagements |
| Aggregation.HcpGroupIsEngagementsOfKey | scripts/transform.py:125-128 | with unique ids, a key's group is the engagements whose HCP and looked-up brand name form that key, in order |
| Aggregation.UnlinkedEngagementFallsOut | scripts/transform.py:125-128 | an engagement whose campaign was dropped, or whose brand is unknown, has no group key |
| Aggregation.HcpTotals | scripts/transform.py:128-131 | with unique ids, a key's summary is computed over its own non-empty engagements, all of that HCP |
| Aggregation.HcpKeysReached | scripts/transform.py:125-128 | with unique ids, an (HCP id, brand name) key has a summary exactly when some cleaned engagement reaches it |
| Aggregation.SummarizeHcpPermutation | scripts/transform.py:128-131 | a key's interaction count and mean duration do not depend on the order of its engagements |
| Aggregation.HcpKeyCarriesOver | scripts/transform.py:125-128 | with unique ids, a key with a summary keeps it when the engagements are reordered |
| Aggregation.HcpGroupPermutation | scripts/transform.py:125-128 | with unique ids, reordering the engagements only reorders each key's group |
| Aggregation.HcpEntryIgnoresOrder | scripts/transform.py:124-131 | with unique ids, a key's summary is the same after the engagements are reordered |
| Aggregation.HcpEntriesCarryOver | scripts/transform.py:124-131 | with unique ids, every HCP summary of one engagement order is an HCP summary of the other |
| Aggregation.HcpSummaryIgnoresEngagementOrder | scripts/transform.py:124-131 | with unique ids, the HCP engagement table does not depend on the order of the cleaned engagements |
| TransformStage.StagedTablesKeys | scripts/transform.py:27-31 | the loaded dictionary has exactly the manifest's logical names as keys |
| TransformStage.StagedTablesValues | scripts/transform.py:27-31 | each logical name holds the content of its own file |
| TransformStage.ManifestNamesDistinct | scripts/transform.py:15-21 | the manifest `Manifest`, the `FILES` dictionary in order, names each logical table once |
| TransformStage.LoadData | scripts/transform.py:23-38 | the loop yields a dictionary exactly when every manifest file exists, and it is the staged tables by logical name |
| TransformStage.StagedInputs | scripts/transform.py:15-31 | with all five files staged, the tables are keyed campaigns, hcp, performance, brands and channels, each read from its own file |
| TransformStage.RunStages | scripts/transform.py:150-175 | succeeds exactly when every table is of its kind and the campaign dates parse; then the result is the enriched campaigns, the cleaned engagements and the three summaries of the cleaned tables |
| TransformStage.Package | scripts/transform.py:171-175 | exactly the five output names, each holding its own table |
| TransformStage.Transform | scripts/transform.py:139-179 | either the empty map or exactly the five named tables; non-empty exactly when all files are staged and every stage succeeds |
| TransformStage.TransformData | scripts/transform.py:139-179 | loading and then running the stages gives the specification's result, never a partial one |
| TransformStage.MissingFileEmptiesResult | scripts/transform.py:29-30 | a missing manifest file makes the whole result empty |
| Validation.Verdict | scripts/validation.py:100-104 | success returns the input unchanged, exactly when both reference files and both fact tables are present and every fatal check passes; a missing reference file and a missing fact table are told apart |
| Validation.CampaignKeys | scripts/validation.py:36 | the campaign-id column of the campaign facts, present exactly when the table is; it has no null exactly when the table is absent or every campaign has an id |
| Validation.EngagementKeys | scripts/validation.py:37 | the engagement-id column of the engagement facts, present exactly when the table is; it has no null exactly when the table is absent or every engagement has an id |
| Validation.BrandKeys | scripts/validation.py:38 | the brand-id column of the brands table; it has no null exactly when every brand has an id |
| Validation.NullKeyFindings | scripts/validation.py:41-46 | only null-key findings, and none exactly when no present key column has a null |
| Validation.NullKeyFindingsMembers | scripts/validation.py:41-46 | a table is reported exactly when its key column is present and has a null |
| Validation.Report | scripts/validation.py:53-57 | a check reports its rule exactly when it fails; `Validation.WarningFindings`, `Validation.FatalFindings` and `Validation.CtrFinding` state when each check fails |
| Validation.PrimaryKeyChecks | scripts/validation.py:35-39 | the three (key column, table name) pairs of check 1, in order; no ensures of its own: `Validation.NullKeyFindingsNameTables` says which tables it leads to reporting |
| Validation.StatusesValid | scripts/validation.py:51-52 | every campaign status is planned, active or completed; `Validation.WarningFindings` ties it to the status warning |
| Validation.ChannelTypesValid | scripts/validation.py:59-60 | every channel type is digital or traditional; `Validation.WarningFindings` ties it to the channel-type warning |
| Validation.BrandIdsResolve | scripts/validation.py:69-70 | every campaign's brand id occurs among the brands' ids, a missing id matching a missing id as `isin` does; `Validation.FatalFindings` ties it to the orphan finding |
| Validation.DurationsPositive | scripts/validation.py:81-82 | every engagement lasts more than 0 seconds; `Validation.FatalFindings` ties it to the duration finding |
| Validation.CtrOutside | scripts/validation.py:87-90 | a CTR is outside when it is below 0 or above 1; a NaN CTR compares false and is not outside, and an infinite CTR is outside; `Validation.CtrFinding` ties it to the CTR warning |
| Validation.FatalChecksPass | scripts/validation.py:35-85 | no key column has a null, every brand id resolves and every duration is positive; `Validation.Verdict` succeeds exactly when it holds on the present tables |
| Validation.Findings | scripts/validation.py:41-95 | the findings in the order they are logged; `Validation.ValidateData` is proved to return it, and `Validation.NullKeyFindingsNameTables`, `Validation.WarningFindings`, `Validation.CtrFinding` and `Validation.FatalFindings` state when each one appears |
| Validation.CheckPrimaryKeys | scripts/validation.py:35-46 | the loop over the key checks reports the null-key findings and clears the flag exactly when some present key column has a null |
| Validation.ValidateData | scripts/validation.py:8-104 | the flag-clearing sequence of checks gives the verdict and the findings of the specification |
| Validation.NullKeyFindingsNameTables | scripts/validation.py:35-46 | Campaigns, HCP Engagements and Brands are each reported exactly when their key column has a null |
| Validation.WarningFindings | scripts/validation.py:51-64 | an invalid status and an invalid channel type are each reported exactly when some value lies outside its allowed list |
| Validation.CtrFinding | scripts/validation.py:87-95 | the CTR warning is reported exactly when a channel summary is present and some CTR is below 0 or above 1 |
| Validation.FatalFindings | scripts/validation.py:69-85 | an orphan brand id and a non-positive duration are each reported exactly when some row shows it |
| Validation.OnlyFatalFindingsFail | scripts/validation.py:30-104 | with all tables present, validation succeeds exactly when every finding is only a warning |
| Validation.FatalChecksIgnoreStatus | scripts/validation.py:51-57 | campaigns differing only in status pass or fail the fatal checks alike |
| Validation.StatusesNeverDecide | scripts/validation.py:51-57 | changing campaign statuses never changes the verdict |
| Validation.ChannelChecksNeverDecide | scripts/validation.py:59-95 | neither the channel types nor the channel summary ever change the verdict |
| Validation.ZeroDurationPassesCleaningFailsValidation | scripts/validation.py:81-83 | an engagement of 0 seconds survives the engagement cleaner, and the tables holding it fail validation; once the reference files and the campaign facts are present, it is the quality check that fails |
| Validation.EmptyResultIsMissingTable | scripts/validation.py:19-52 | the empty result of a failed transform fails validation as a missing table: the fact frames are `None` (lines 19-20) and line 52 subscripts the campaigns frame |
| Validation.TransformResultHasTables | scripts/transform.py:171-175 | a non-empty transform result holds both fact tables and the channel summary the validator reads |
| Validation.CtrWarningNeverFiresOnTransform | scripts/validation.py:87-95 | on a transform result whose performance rows have non-negative clicks, every CTR lies in range |
| Fixture.FundedCampaigns | tests/test_transform.py:28-37 | the budget filter drops the zero-budget campaign 2 |
| Fixture.FundedRowsOrdered | tests/test_transform.py:33-34 | the date filter drops campaign 3, which ends before it starts |
| Fixture.FixtureCampaignCleaning | tests/test_transform.py:82-83 | the cleaned campaigns are exactly campaign 1 |
| Fixture.FixtureEngagementCleaning | tests/test_transform.py:89-90 | the cleaned engagements are one row, of 120 seconds |
| Fixture.FixturePerformanceCleaning | tests/test_transform.py:44-51 | all three performance rows are consistent and kept |
| Fixture.RowsOfCampaignOne | tests/test_transform.py:46 | performance rows 1 and 2 carry campaign 1 |
| Fixture.CampaignOneTotals | tests/test_transform.py:97-100 | campaign 1 sums to spend 150, clicks 10, conversions 2 |
| Fixture.CampaignOneAggregate | tests/test_transform.py:97-100 | the per-campaign totals hold campaign 1 with those sums |
| Fixture.CampaignOneKpis | tests/test_transform.py:108-112 | 150/10 is 15.0 and 2/10 is 0.2 |
| Fixture.FixtureEnrichment | tests/test_transform.py:102-115 | campaign 1 is enriched with spend 150, clicks 10, cost per click 15.0, conversion rate 0.2 and 9 days |
| Fixture.FixtureEnrichedRow | tests/test_transform.py:102-115 | the enriched table of the fixture is the single row `EnrichedValid` |
| Fixture.FirstTwoSums | tests/test_transform.py:123 | rows 1 and 2 sum to impressions 2000, clicks 10, spend 150, conversions 2 |
| Fixture.RowChannels | tests/test_transform.py:122 | rows 1 and 2 reach Email through campaign 1, and row 3 reaches no channel |
| Fixture.EmailRows | tests/test_transform.py:122-123 | the rows reaching Email are rows 1 and 2 |
| Fixture.EmailOnly | tests/test_transform.py:122-125 | row 1 reaches Email and no row reaches Web |
| Fixture.EmailReached | tests/test_transform.py:125 | Email has a channel summary and Web has none |
| Fixture.FixtureEmailChannel | tests/test_transform.py:125-131 | the Email summary has impressions 2000, clicks 10, spend 150 and conversions 2 |
| Fixture.FixtureTables | tests/test_transform.py:16-66 | every fixture file is staged and each table is read from its own file |
| Fixture.FixtureRunStages | tests/test_transform.py:73-90 | the stages succeed on the fixture: the campaign facts are `EnrichedValid` alone and the engagement facts one visit |
| Fixture.FixtureTransform | tests/test_transform.py:73-77 | `transform_data` on the fixture returns the five tables, with those campaign and engagement facts and the channel summary of `EnrichedValid` |
| Fixture.FixtureTransformEmail | tests/test_transform.py:117-131 | in `transform_data`'s own output, the Email summary has impressions 2000, clicks 10, spend 150 and conversions 2, and Web has none |

## Left out

- CSV reading and writing, `os.path.exists` and `os.path.join`, logging and printing. The staging directory is a map from file name to table content. The validator takes the brands and channels tables as optional inputs, where None means the file could not be read.
- Parse errors of `pd.read_csv` (a malformed file) are not modelled. A file holds rows of its own kind. A table stored under another table's name makes the stage fail as a missing column would.
- scripts/load.py, scripts/extract.py, scripts/main.py and the synthetic data generator are not part of this model: they are database, file-copy and reporting I/O, or random generation.
- IEEE floating point: spend, budgets and KPIs are exact reals. Rounding is not modelled, and neither is NaN in measure columns (a NaN spend or count in the input).
- pandas date parsing: dates are day numbers, and only "missing" and "unparseable" are kept apart from a valid day.
- The row order of `groupby` output (sorted by key) is not modelled: the summaries are maps keyed by the group key.
- `_enrich_campaign_features` assigns the duration column into the caller's campaigns frame. The model returns a new table instead; the caller never reads the old frame again.
- `_create_aggregations` adds the CTR and average cost-per-click columns to its summary frame in place. The model builds each summary row with them.
- The column layout of the output frames (column names, `reset_index`, the extra merge columns) is not modelled. Each output row is a datatype with the values the pipeline computes.
- Validation.ValidateData: the log messages, and the distinct values listed in the warnings, are reduced to one finding per failed check.
- Validation.EmptyResultIsMissingTable: the TypeError raised on a missing fact table and the ValueError of a failed check become distinct error values of a result.
- Validation.CampaignFactsIn, Validation.EngagementFactsIn, Validation.ChannelSummaryIn: a table of the wrong kind stored under an output name is treated as absent, so its null-key check is skipped, where the code would raise a KeyError on the missing column (scripts/validation.py:42). The transform stage never produces such a map (`Validation.TransformResultHasTables`).
- Seqs.Count: its own ensures states only the bound by the number of rows; which rows it counts is stated by `Seqs.CountIsSum`, which equates it with the sum of the 0/1 indicator column.
