/**
 * The orchestration of the transform stage (scripts/transform.py, _load_data
 * and transform_data): load the five staged tables named by the manifest, clean
 * them, enrich the campaigns, build the three summaries and hand back the five
 * output tables by name, or an empty map if anything failed.
 */
module TransformStage {
  import opened Wrappers
  import opened Tables
  import opened Cleaning
  import opened Enrichment
  import opened Aggregation

  // ---------------------------------------------------------------------------
  // Loading
  // ---------------------------------------------------------------------------

  /** The content of one staged CSV file, by the kind of table it holds. */
  datatype RawTable =
    | CampaignsFile(campaigns: seq<Campaign>)
    | EngagementsFile(engagements: seq<Engagement>)
    | PerformanceFile(performance: seq<Performance>)
    | BrandsFile(brands: seq<Brand>)
    | ChannelsFile(channels: seq<Channel>)

  /** The staging directory: a file exists exactly when its name is a key. */
  type Staging = map<string, RawTable>

  /** The required files: (logical name, file name), in load order. */
  const Manifest: seq<(string, string)> := [
    ("campaigns", "campaigns.csv"),
    ("hcp", "hcp_engagements.csv"),
    ("performance", "channel_performance.csv"),
    ("brands", "brands.csv"),
    ("channels", "channels.csv")]

  /** A manifest names each logical table once, as the keys of a dictionary do. */
  predicate NamesDistinct(manifest: seq<(string, string)>)
  {
    forall i, j :: 0 <= i < j < |manifest| ==> manifest[i].0 != manifest[j].0
  }

  predicate AllStaged(staging: Staging, manifest: seq<(string, string)>)
  {
    forall i :: 0 <= i < |manifest| ==> manifest[i].1 in staging
  }

  /** The tables read for a fully staged manifest, keyed by logical name. */
  function StagedTables(staging: Staging, manifest: seq<(string, string)>): map<string, RawTable>
    requires AllStaged(staging, manifest)
    decreases |manifest|
  {
    if manifest == [] then map[]
    else
      var last := manifest[|manifest| - 1];
      StagedTables(staging, manifest[..|manifest| - 1])[last.0 := staging[last.1]]
  }

  /** Exactly the logical names of the manifest are loaded. */
  lemma {:induction false} StagedTablesKeys(staging: Staging, manifest: seq<(string, string)>)
    requires AllStaged(staging, manifest)
    ensures StagedTables(staging, manifest).Keys == set i | 0 <= i < |manifest| :: manifest[i].0
    decreases |manifest|
  {
    if manifest != [] {
      var init := manifest[..|manifest| - 1];
      var n := |manifest| - 1;
      StagedTablesKeys(staging, init);
      var all := set i | 0 <= i < |manifest| :: manifest[i].0;
      var before := set i | 0 <= i < |init| :: init[i].0;
      forall x | x in all ensures x in before + {manifest[n].0} {
        var i :| 0 <= i < |manifest| && manifest[i].0 == x;
        if i < n { assert init[i] == manifest[i]; }
      }
      forall x | x in before ensures x in all {
        var i :| 0 <= i < |init| && init[i].0 == x;
        assert manifest[i] == init[i];
      }
      assert all == before + {manifest[n].0};
    }
  }

  /** Each logical name of a manifest without repeated names is loaded from its own file. */
  lemma {:induction false} StagedTablesValues(staging: Staging, manifest: seq<(string, string)>)
    requires NamesDistinct(manifest) && AllStaged(staging, manifest)
    ensures forall i :: 0 <= i < |manifest| ==>
      manifest[i].0 in StagedTables(staging, manifest) && StagedTables(staging, manifest)[manifest[i].0] == staging[manifest[i].1]
    decreases |manifest|
  {
    if manifest != [] {
      var init := manifest[..|manifest| - 1];
      var n := |manifest| - 1;
      assert NamesDistinct(init);
      StagedTablesValues(staging, init);
      var t := StagedTables(staging, manifest);
      forall i | 0 <= i < |manifest| ensures manifest[i].0 in t && t[manifest[i].0] == staging[manifest[i].1] {
        if i < n {
          assert init[i] == manifest[i];
          assert manifest[i].0 != manifest[n].0;
        }
      }
    }
  }

  /**
   * Reads every file of the manifest in order into a dictionary keyed by
   * logical name; the first missing file aborts the load with None.
   */
  method LoadData(staging: Staging, manifest: seq<(string, string)>) returns (loaded: Option<map<string, RawTable>>)
    ensures loaded.Some? <==> AllStaged(staging, manifest)
    ensures loaded.Some? ==> AllStaged(staging, manifest) && loaded.value == StagedTables(staging, manifest)
  {
    var tables: map<string, RawTable> := map[];
    var i := 0;
    while i < |manifest|
      invariant 0 <= i <= |manifest|
      invariant AllStaged(staging, manifest[..i])
      invariant tables == StagedTables(staging, manifest[..i])
    {
      var (name, file) := manifest[i];
      if file !in staging {
        return None;
      }
      assert manifest[..i + 1][..i] == manifest[..i];
      tables := tables[name := staging[file]];
      i := i + 1;
    }
    assert manifest[..i] == manifest;
    return Some(tables);
  }

  // ---------------------------------------------------------------------------
  // The stages
  // ---------------------------------------------------------------------------

  /** Why a stage raised: a table that is not what its name says (a missing column), or a date that does not parse. */
  datatype TransformError = WrongTable(name: string) | BadDate

  function CampaignsOf(tables: map<string, RawTable>): Result<seq<Campaign>, TransformError>
  {
    if "campaigns" in tables && tables["campaigns"].CampaignsFile? then Success(tables["campaigns"].campaigns)
    else Failure(WrongTable("campaigns"))
  }

  function EngagementsOf(tables: map<string, RawTable>): Result<seq<Engagement>, TransformError>
  {
    if "hcp" in tables && tables["hcp"].EngagementsFile? then Success(tables["hcp"].engagements)
    else Failure(WrongTable("hcp"))
  }

  function PerformanceOf(tables: map<string, RawTable>): Result<seq<Performance>, TransformError>
  {
    if "performance" in tables && tables["performance"].PerformanceFile? then Success(tables["performance"].performance)
    else Failure(WrongTable("performance"))
  }

  function BrandsOf(tables: map<string, RawTable>): Result<seq<Brand>, TransformError>
  {
    if "brands" in tables && tables["brands"].BrandsFile? then Success(tables["brands"].brands)
    else Failure(WrongTable("brands"))
  }

  function ChannelsOf(tables: map<string, RawTable>): Result<seq<Channel>, TransformError>
  {
    if "channels" in tables && tables["channels"].ChannelsFile? then Success(tables["channels"].channels)
    else Failure(WrongTable("channels"))
  }

  predicate TablesWellFormed(tables: map<string, RawTable>)
  {
    CampaignsOf(tables).Success? && EngagementsOf(tables).Success? && PerformanceOf(tables).Success? &&
    BrandsOf(tables).Success? && ChannelsOf(tables).Success?
  }

  /** The five tables the transform stage produces. */
  datatype Output = Output(
    factCampaignPerformance: seq<EnrichedCampaign>,
    factHcpEngagement: seq<Engagement>,
    aggBrandPerformance: map<string, BrandPerformance>,
    aggChannelEffectiveness: map<string, ChannelEffectiveness>,
    aggHcpSummary: map<(int, string), HcpSummary>)

  /**
   * Clean, enrich, aggregate. The cleaned performance feeds both the
   * enrichment and the channel summary; the cleaned engagements are both an
   * output and the input of the HCP summary; the brand and channel tables are
   * used as read.
   */
  function RunStages(tables: map<string, RawTable>): (r: Result<Output, TransformError>)
    ensures r.Success? <==> TablesWellFormed(tables) && CleanCampaigns(CampaignsOf(tables).value).Success?
    ensures r.Success? ==>
      var campaigns := CleanCampaigns(CampaignsOf(tables).value).value;
      var performance := CleanPerformance(PerformanceOf(tables).value);
      var engagements := CleanEngagements(EngagementsOf(tables).value);
      var enriched := EnrichCampaigns(campaigns, performance);
      r.value == Output(
        enriched,
        engagements,
        AggregateByBrand(enriched, BrandsOf(tables).value),
        AggregateByChannel(enriched, performance, ChannelsOf(tables).value),
        AggregateByHcp(enriched, engagements, BrandsOf(tables).value))
  {
    var c, h, p, b, ch := CampaignsOf(tables), EngagementsOf(tables), PerformanceOf(tables), BrandsOf(tables), ChannelsOf(tables);
    if c.Failure? then Failure(c.error)
    else if h.Failure? then Failure(h.error)
    else if p.Failure? then Failure(p.error)
    else if b.Failure? then Failure(b.error)
    else if ch.Failure? then Failure(ch.error)
    else
      var cleanCampaigns := CleanCampaigns(c.value);
      if cleanCampaigns.Failure? then Failure(BadDate)
      else
        var cleanHcp := CleanEngagements(h.value);
        var cleanPerf := CleanPerformance(p.value);
        var enriched := EnrichCampaigns(cleanCampaigns.value, cleanPerf);
        Success(Output(
          enriched,
          cleanHcp,
          AggregateByBrand(enriched, b.value),
          AggregateByChannel(enriched, cleanPerf, ch.value),
          AggregateByHcp(enriched, cleanHcp, b.value)))
  }

  // ---------------------------------------------------------------------------
  // The result map
  // ---------------------------------------------------------------------------

  /** One output table, by kind. */
  datatype TableValue =
    | CampaignFacts(campaignRows: seq<EnrichedCampaign>)
    | EngagementFacts(engagementRows: seq<Engagement>)
    | BrandTable(brandRows: map<string, BrandPerformance>)
    | ChannelTable(channelRows: map<string, ChannelEffectiveness>)
    | HcpTable(hcpRows: map<(int, string), HcpSummary>)

  const FactCampaignPerformance: string := "fact_campaign_performance"
  const FactHcpEngagement: string := "fact_hcp_engagement"
  const AggBrandPerformance: string := "agg_brand_performance"
  const AggChannelEffectiveness: string := "agg_channel_effectiveness"
  const AggHcpSummary: string := "agg_hcp_summary"

  const OutputNames: set<string> :=
    {FactCampaignPerformance, FactHcpEngagement, AggBrandPerformance, AggChannelEffectiveness, AggHcpSummary}

  function Package(o: Output): (m: map<string, TableValue>)
    ensures m.Keys == OutputNames
    ensures m[FactCampaignPerformance] == CampaignFacts(o.factCampaignPerformance)
    ensures m[FactHcpEngagement] == EngagementFacts(o.factHcpEngagement)
    ensures m[AggBrandPerformance] == BrandTable(o.aggBrandPerformance)
    ensures m[AggChannelEffectiveness] == ChannelTable(o.aggChannelEffectiveness)
    ensures m[AggHcpSummary] == HcpTable(o.aggHcpSummary)
  {
    map[
      FactCampaignPerformance := CampaignFacts(o.factCampaignPerformance),
      FactHcpEngagement := EngagementFacts(o.factHcpEngagement),
      AggBrandPerformance := BrandTable(o.aggBrandPerformance),
      AggChannelEffectiveness := ChannelTable(o.aggChannelEffectiveness),
      AggHcpSummary := HcpTable(o.aggHcpSummary)]
  }

  lemma ManifestNamesDistinct()
    ensures NamesDistinct(Manifest)
  {
  }

  /**
   * The whole stage: an empty map when a manifest file is missing or a stage
   * fails, and otherwise exactly the five named output tables.
   */
  function Transform(staging: Staging): (out: map<string, TableValue>)
    ensures out == map[] || out.Keys == OutputNames
    ensures out != map[] <==> AllStaged(staging, Manifest) && RunStages(StagedTables(staging, Manifest)).Success?
    ensures out != map[] ==> out == Package(RunStages(StagedTables(staging, Manifest)).value)
  {
    if !AllStaged(staging, Manifest) then map[]
    else
      var r := RunStages(StagedTables(staging, Manifest));
      if r.Failure? then map[] else Package(r.value)
  }

  /** transform_data: load, then run the stages; any failure yields the empty map and never a partial result. */
  method TransformData(staging: Staging) returns (out: map<string, TableValue>)
    ensures out == Transform(staging)
  {
    var loaded := LoadData(staging, Manifest);
    if loaded.None? {
      return map[];
    }
    var r := RunStages(loaded.value);
    if r.Failure? {
      return map[];
    }
    return Package(r.value);
  }

  /** With every file staged, each logical table is read from its manifest file. */
  lemma StagedInputs(staging: Staging)
    requires "campaigns.csv" in staging && "hcp_engagements.csv" in staging && "channel_performance.csv" in staging
    requires "brands.csv" in staging && "channels.csv" in staging
    ensures AllStaged(staging, Manifest)
    ensures var t := StagedTables(staging, Manifest);
      t.Keys == {"campaigns", "hcp", "performance", "brands", "channels"} &&
      t["campaigns"] == staging["campaigns.csv"] && t["hcp"] == staging["hcp_engagements.csv"] &&
      t["performance"] == staging["channel_performance.csv"] &&
      t["brands"] == staging["brands.csv"] && t["channels"] == staging["channels.csv"]
  {
    ManifestNamesDistinct();
    assert AllStaged(staging, Manifest);
    StagedTablesKeys(staging, Manifest);
    StagedTablesValues(staging, Manifest);
    var t := StagedTables(staging, Manifest);
    assert Manifest[0].0 == "campaigns" && Manifest[1].0 == "hcp" && Manifest[2].0 == "performance";
    assert Manifest[3].0 == "brands" && Manifest[4].0 == "channels";
    assert t.Keys == {"campaigns", "hcp", "performance", "brands", "channels"} by {
      forall x | x in t.Keys ensures x in {"campaigns", "hcp", "performance", "brands", "channels"} {
        var i :| 0 <= i < |Manifest| && Manifest[i].0 == x;
      }
    }
  }

  /** A missing manifest file empties the whole result. */
  lemma MissingFileEmptiesResult(staging: Staging, i: nat)
    requires i < |Manifest| && Manifest[i].1 !in staging
    ensures Transform(staging) == map[]
  {
  }
}
