/**
 * The data-quality gate after the transform stage (scripts/validation.py,
 * validate_data). Fatal rules clear a single validity flag; warning rules are
 * only reported. The verdict hands the tables back unchanged or raises.
 */
module Validation {
  import opened Wrappers
  import opened Tables
  import opened Cleaning
  import opened Enrichment
  import opened Aggregation
  import opened TransformStage

  /** The checks, by the finding each reports. */
  datatype Rule =
    | NullPrimaryKey(table: string)
    | InvalidStatus
    | InvalidChannelType
    | OrphanBrandId
    | NonPositiveDuration
    | CtrOutOfRange

  datatype Severity = Fatal | Warning

  /** Only the enum and CTR checks are warnings; the rest clear the validity flag. */
  function SeverityOf(r: Rule): Severity
  {
    match r
    case InvalidStatus => Warning
    case InvalidChannelType => Warning
    case CtrOutOfRange => Warning
    case _ => Fatal
  }

  /**
   * How validation raises: a reference file cannot be read (FileNotFoundError),
   * a transform table it subscripts is absent (the TypeError of subscripting
   * None), or a fatal rule failed (ValueError).
   */
  datatype ValidationError = ReferenceFileMissing | TableMissing | QualityCheckFailed

  const ValidStatuses: seq<string> := ["planned", "active", "completed"]
  const ValidChannelTypes: seq<string> := ["digital", "traditional"]

  // ---------------------------------------------------------------------------
  // The tables the validator reads from the transform result
  // ---------------------------------------------------------------------------

  function CampaignFactsIn(processed: map<string, TableValue>): Option<seq<EnrichedCampaign>>
  {
    if FactCampaignPerformance in processed && processed[FactCampaignPerformance].CampaignFacts?
    then Some(processed[FactCampaignPerformance].campaignRows) else None
  }

  function EngagementFactsIn(processed: map<string, TableValue>): Option<seq<Engagement>>
  {
    if FactHcpEngagement in processed && processed[FactHcpEngagement].EngagementFacts?
    then Some(processed[FactHcpEngagement].engagementRows) else None
  }

  function ChannelSummaryIn(processed: map<string, TableValue>): Option<map<string, ChannelEffectiveness>>
  {
    if AggChannelEffectiveness in processed && processed[AggChannelEffectiveness].ChannelTable?
    then Some(processed[AggChannelEffectiveness].channelRows) else None
  }

  // ---------------------------------------------------------------------------
  // The individual checks
  // ---------------------------------------------------------------------------

  /** A primary-key column without nulls; an absent table passes. */
  predicate NoNullKeys(keys: Option<seq<Key>>)
  {
    keys.None? || forall k :: k in keys.value ==> k.Some?
  }

  function CampaignKeys(campaigns: Option<seq<EnrichedCampaign>>): (keys: Option<seq<Key>>)
    ensures keys.Some? <==> campaigns.Some?
    ensures keys.Some? ==>
      |keys.value| == |campaigns.value| &&
      forall i :: 0 <= i < |campaigns.value| ==> keys.value[i] == campaigns.value[i].campaign.campaignId
    ensures NoNullKeys(keys) <==> campaigns.None? || forall e :: e in campaigns.value ==> e.campaign.campaignId.Some?
  {
    if campaigns.None? then None
    else Some(seq(|campaigns.value|, i requires 0 <= i < |campaigns.value| => campaigns.value[i].campaign.campaignId))
  }

  function EngagementKeys(engagements: Option<seq<Engagement>>): (keys: Option<seq<Key>>)
    ensures keys.Some? <==> engagements.Some?
    ensures keys.Some? ==>
      |keys.value| == |engagements.value| &&
      forall i :: 0 <= i < |engagements.value| ==> keys.value[i] == engagements.value[i].engagementId
    ensures NoNullKeys(keys) <==> engagements.None? || forall h :: h in engagements.value ==> h.engagementId.Some?
  {
    if engagements.None? then None
    else Some(seq(|engagements.value|, i requires 0 <= i < |engagements.value| => engagements.value[i].engagementId))
  }

  function BrandKeys(brands: seq<Brand>): (keys: seq<Key>)
    ensures |keys| == |brands| && forall i :: 0 <= i < |brands| ==> keys[i] == brands[i].brandId
    ensures NoNullKeys(Some(keys)) <==> forall b :: b in brands ==> b.brandId.Some?
  {
    seq(|brands|, i requires 0 <= i < |brands| => brands[i].brandId)
  }

  predicate StatusesValid(campaigns: seq<EnrichedCampaign>)
  {
    forall e :: e in campaigns ==> e.campaign.status in ValidStatuses
  }

  predicate ChannelTypesValid(channels: seq<Channel>)
  {
    forall ch :: ch in channels ==> ch.channelType in ValidChannelTypes
  }

  /** Every campaign's brand id is one of the brands' ids (a missing id matches a missing id). */
  predicate BrandIdsResolve(campaigns: seq<EnrichedCampaign>, brands: seq<Brand>)
  {
    forall e :: e in campaigns ==> exists b :: b in brands && b.brandId == e.campaign.brandId
  }

  predicate DurationsPositive(engagements: seq<Engagement>)
  {
    forall h :: h in engagements ==> h.durationSec > 0
  }

  /** CTR < 0 or CTR > 1; every comparison with NaN is false. */
  predicate CtrOutside(q: Quotient)
  {
    match q
    case Finite(v) => v < 0.0 || v > 1.0
    case PosInf => true
    case NegInf => true
    case NaN => false
  }

  predicate CtrsInRange(agg: map<string, ChannelEffectiveness>)
  {
    forall name :: name in agg ==> !CtrOutside(agg[name].ctr)
  }

  /** The conjunction of the fatal rules, once all tables are at hand. */
  predicate FatalChecksPass(campaigns: seq<EnrichedCampaign>, engagements: seq<Engagement>, brands: seq<Brand>)
  {
    NoNullKeys(CampaignKeys(Some(campaigns))) && NoNullKeys(EngagementKeys(Some(engagements))) &&
    NoNullKeys(Some(BrandKeys(brands))) &&
    BrandIdsResolve(campaigns, brands) && DurationsPositive(engagements)
  }

  // ---------------------------------------------------------------------------
  // The verdict
  // ---------------------------------------------------------------------------

  /**
   * The outcome of validation: the input returned unchanged exactly when the
   * reference files were read, both fact tables are present and every fatal
   * rule holds. The warning rules do not take part.
   */
  function Verdict(processed: map<string, TableValue>, brands: Option<seq<Brand>>, channels: Option<seq<Channel>>)
    : (r: Result<map<string, TableValue>, ValidationError>)
    ensures r.Success? ==> r.value == processed
    ensures r.Success? <==>
      brands.Some? && channels.Some? && CampaignFactsIn(processed).Some? && EngagementFactsIn(processed).Some? &&
      FatalChecksPass(CampaignFactsIn(processed).value, EngagementFactsIn(processed).value, brands.value)
    ensures r == Failure(ReferenceFileMissing) <==> brands.None? || channels.None?
    ensures r == Failure(TableMissing) <==>
      brands.Some? && channels.Some? && (CampaignFactsIn(processed).None? || EngagementFactsIn(processed).None?)
  {
    if brands.None? || channels.None? then Failure(ReferenceFileMissing)
    else
      var campaigns, engagements := CampaignFactsIn(processed), EngagementFactsIn(processed);
      if campaigns.None? || engagements.None? then Failure(TableMissing)
      else if FatalChecksPass(campaigns.value, engagements.value, brands.value) then Success(processed)
      else Failure(QualityCheckFailed)
  }

  /** The (key column, table name) pairs of check 1, in the order they are examined. */
  function PrimaryKeyChecks(campaigns: Option<seq<EnrichedCampaign>>, engagements: Option<seq<Engagement>>, brands: seq<Brand>)
    : seq<(Option<seq<Key>>, string)>
  {
    [(CampaignKeys(campaigns), "Campaigns"), (EngagementKeys(engagements), "HCP Engagements"), (Some(BrandKeys(brands)), "Brands")]
  }

  /** The findings of the null-key checks, one per offending table, in order. */
  function NullKeyFindings(pkChecks: seq<(Option<seq<Key>>, string)>): (r: seq<Rule>)
    ensures forall x :: x in r ==> x.NullPrimaryKey?
    ensures r == [] <==> forall j :: 0 <= j < |pkChecks| ==> NoNullKeys(pkChecks[j].0)
    decreases |pkChecks|
  {
    if pkChecks == [] then []
    else
      var init, last := pkChecks[..|pkChecks| - 1], pkChecks[|pkChecks| - 1];
      assert forall j :: 0 <= j < |init| ==> init[j] == pkChecks[j];
      NullKeyFindings(init) + (if NoNullKeys(last.0) then [] else [NullPrimaryKey(last.1)])
  }

  /** A table is named in a null-key finding exactly when one of its checked key columns holds a null. */
  lemma {:induction false} NullKeyFindingsMembers(pkChecks: seq<(Option<seq<Key>>, string)>, x: Rule)
    ensures x in NullKeyFindings(pkChecks) <==>
      exists j :: 0 <= j < |pkChecks| && !NoNullKeys(pkChecks[j].0) && x == NullPrimaryKey(pkChecks[j].1)
    decreases |pkChecks|
  {
    if pkChecks != [] {
      var n := |pkChecks| - 1;
      var init, last := pkChecks[..n], pkChecks[n];
      NullKeyFindingsMembers(init, x);
      assert NullKeyFindings(pkChecks) == NullKeyFindings(init) + (if NoNullKeys(last.0) then [] else [NullPrimaryKey(last.1)]);
      if x in NullKeyFindings(pkChecks) {
        if x in NullKeyFindings(init) {
          var j :| 0 <= j < n && !NoNullKeys(init[j].0) && x == NullPrimaryKey(init[j].1);
          assert init[j] == pkChecks[j];
        } else {
          assert !NoNullKeys(pkChecks[n].0) && x == NullPrimaryKey(pkChecks[n].1);
        }
      }
      if exists j :: 0 <= j < |pkChecks| && !NoNullKeys(pkChecks[j].0) && x == NullPrimaryKey(pkChecks[j].1) {
        var j :| 0 <= j < |pkChecks| && !NoNullKeys(pkChecks[j].0) && x == NullPrimaryKey(pkChecks[j].1);
        if j < n {
          assert init[j] == pkChecks[j];
        }
      }
    }
  }

  /** A rule's finding when its check fails, nothing otherwise. */
  function Report(fails: bool, r: Rule): (out: seq<Rule>)
    ensures out == [] <==> !fails
    ensures forall x :: x in out <==> fails && x == r
  {
    if fails then [r] else []
  }

  /**
   * The findings validate_data reports, in the order it reports them: the
   * null-key checks, then the enum checks and the brand lookup once the
   * campaign table has been subscripted, then the duration and CTR checks once
   * the engagement table has been subscripted.
   */
  function Findings(processed: map<string, TableValue>, brands: Option<seq<Brand>>, channels: Option<seq<Channel>>): seq<Rule>
  {
    if brands.None? || channels.None? then []
    else
      var campaigns, engagements := CampaignFactsIn(processed), EngagementFactsIn(processed);
      var keys := NullKeyFindings(PrimaryKeyChecks(campaigns, engagements, brands.value));
      if campaigns.None? then keys
      else
        var early := keys +
          Report(!StatusesValid(campaigns.value), InvalidStatus) +
          Report(!ChannelTypesValid(channels.value), InvalidChannelType) +
          Report(!BrandIdsResolve(campaigns.value, brands.value), OrphanBrandId);
        if engagements.None? then early
        else
          var summary := ChannelSummaryIn(processed);
          early +
          Report(!DurationsPositive(engagements.value), NonPositiveDuration) +
          Report(summary.Some? && !CtrsInRange(summary.value), CtrOutOfRange)
  }

  /**
   * The null-key loop over (key column, table name) pairs: the flag stays set
   * exactly when no present column holds a null.
   */
  method CheckPrimaryKeys(pkChecks: seq<(Option<seq<Key>>, string)>) returns (isValid: bool, findings: seq<Rule>)
    ensures findings == NullKeyFindings(pkChecks)
    ensures isValid <==> forall j :: 0 <= j < |pkChecks| ==> NoNullKeys(pkChecks[j].0)
  {
    isValid := true;
    findings := [];
    var i := 0;
    while i < |pkChecks|
      invariant 0 <= i <= |pkChecks|
      invariant findings == NullKeyFindings(pkChecks[..i])
      invariant isValid <==> findings == []
    {
      assert pkChecks[..i + 1][..i] == pkChecks[..i];
      if !NoNullKeys(pkChecks[i].0) {
        findings := findings + [NullPrimaryKey(pkChecks[i].1)];
        isValid := false;
      }
      i := i + 1;
    }
    assert pkChecks[..i] == pkChecks;
  }

  /**
   * validate_data: one validity flag, set once and only ever cleared, and the
   * list of findings in the order the checks report them. The reference
   * tables are given as read (None when the file is missing).
   */
  method ValidateData(processed: map<string, TableValue>, brands: Option<seq<Brand>>, channels: Option<seq<Channel>>)
    returns (outcome: Result<map<string, TableValue>, ValidationError>, findings: seq<Rule>)
    ensures outcome == Verdict(processed, brands, channels)
    ensures findings == Findings(processed, brands, channels)
  {
    findings := [];
    if brands.None? || channels.None? {
      return Failure(ReferenceFileMissing), findings;
    }
    var campaigns, engagements := CampaignFactsIn(processed), EngagementFactsIn(processed);

    // Check 1: no null primary keys; an absent table is skipped.
    var isValid;
    isValid, findings := CheckPrimaryKeys(PrimaryKeyChecks(campaigns, engagements, brands.value));

    // Check 2: enum values, warnings only.
    if campaigns.None? {
      return Failure(TableMissing), findings;
    }
    ghost var before := findings;
    if !StatusesValid(campaigns.value) {
      findings := findings + [InvalidStatus];
    }
    assert findings == before + Report(!StatusesValid(campaigns.value), InvalidStatus);
    before := findings;
    if !ChannelTypesValid(channels.value) {
      findings := findings + [InvalidChannelType];
    }
    assert findings == before + Report(!ChannelTypesValid(channels.value), InvalidChannelType);

    // Check 3: every campaign's brand exists.
    before := findings;
    if !BrandIdsResolve(campaigns.value, brands.value) {
      findings := findings + [OrphanBrandId];
      isValid := false;
    }
    assert findings == before + Report(!BrandIdsResolve(campaigns.value, brands.value), OrphanBrandId);

    // Check 4: positive durations (fatal) and CTR within [0, 1] (warning).
    if engagements.None? {
      return Failure(TableMissing), findings;
    }
    before := findings;
    if !DurationsPositive(engagements.value) {
      findings := findings + [NonPositiveDuration];
      isValid := false;
    }
    assert findings == before + Report(!DurationsPositive(engagements.value), NonPositiveDuration);
    before := findings;
    var summary := ChannelSummaryIn(processed);
    if summary.Some? && !CtrsInRange(summary.value) {
      findings := findings + [CtrOutOfRange];
    }
    assert findings == before + Report(summary.Some? && !CtrsInRange(summary.value), CtrOutOfRange);

    PrimaryKeysOfPresentTables(campaigns.value, engagements.value, brands.value);
    if isValid {
      return Success(processed), findings;
    } else {
      return Failure(QualityCheckFailed), findings;
    }
  }

  /** With both fact tables present, check 1 passes exactly when none of the three key columns holds a null. */
  lemma PrimaryKeysOfPresentTables(campaigns: seq<EnrichedCampaign>, engagements: seq<Engagement>, brands: seq<Brand>)
    ensures (forall j :: 0 <= j < |PrimaryKeyChecks(Some(campaigns), Some(engagements), brands)| ==>
               NoNullKeys(PrimaryKeyChecks(Some(campaigns), Some(engagements), brands)[j].0)) <==>
            NoNullKeys(CampaignKeys(Some(campaigns))) && NoNullKeys(EngagementKeys(Some(engagements))) &&
            NoNullKeys(Some(BrandKeys(brands)))
  {
    var checks := PrimaryKeyChecks(Some(campaigns), Some(engagements), brands);
    assert |checks| == 3 && checks[0].0 == CampaignKeys(Some(campaigns));
    assert checks[1].0 == EngagementKeys(Some(engagements)) && checks[2].0 == Some(BrandKeys(brands));
    if NoNullKeys(checks[0].0) && NoNullKeys(checks[1].0) && NoNullKeys(checks[2].0) {
      forall j | 0 <= j < |checks|
        ensures NoNullKeys(checks[j].0)
      {
        assert j == 0 || j == 1 || j == 2;
      }
    }
  }

  /** Each null-key finding names a table whose key column is present and holds a null. */
  lemma NullKeyFindingsNameTables(processed: map<string, TableValue>, brands: Option<seq<Brand>>, channels: Option<seq<Channel>>, t: string)
    ensures NullPrimaryKey(t) in Findings(processed, brands, channels) <==> (
      brands.Some? && channels.Some? &&
      ((t == "Campaigns" && !NoNullKeys(CampaignKeys(CampaignFactsIn(processed)))) ||
       (t == "HCP Engagements" && !NoNullKeys(EngagementKeys(EngagementFactsIn(processed)))) ||
       (t == "Brands" && !NoNullKeys(Some(BrandKeys(brands.value))))))
  {
    if brands.Some? && channels.Some? {
      var checks := PrimaryKeyChecks(CampaignFactsIn(processed), EngagementFactsIn(processed), brands.value);
      var keys := NullKeyFindings(checks);
      var all := Findings(processed, brands, channels);
      NullKeyFindingsMembers(checks, NullPrimaryKey(t));
      assert NullPrimaryKey(t) in all <==> NullPrimaryKey(t) in keys;
      if NullPrimaryKey(t) in keys {
        var j :| 0 <= j < |checks| && !NoNullKeys(checks[j].0) && NullPrimaryKey(t) == NullPrimaryKey(checks[j].1);
        assert j == 0 || j == 1 || j == 2;
      }
      if t == "Campaigns" && !NoNullKeys(CampaignKeys(CampaignFactsIn(processed))) { assert checks[0].1 == t; }
      if t == "HCP Engagements" && !NoNullKeys(EngagementKeys(EngagementFactsIn(processed))) { assert checks[1].1 == t; }
      if t == "Brands" && !NoNullKeys(Some(BrandKeys(brands.value))) { assert checks[2].1 == t; }
    }
  }

  /**
   * The enum warnings: each is reported exactly when validation got as far as
   * its check and the check failed.
   */
  lemma WarningFindings(processed: map<string, TableValue>, brands: Option<seq<Brand>>, channels: Option<seq<Channel>>)
    ensures InvalidStatus in Findings(processed, brands, channels) <==> (
      brands.Some? && channels.Some? && CampaignFactsIn(processed).Some? &&
      !StatusesValid(CampaignFactsIn(processed).value))
    ensures InvalidChannelType in Findings(processed, brands, channels) <==> (
      brands.Some? && channels.Some? && CampaignFactsIn(processed).Some? &&
      !ChannelTypesValid(channels.value))
  {
    if brands.Some? && channels.Some? {
      var keys := NullKeyFindings(PrimaryKeyChecks(CampaignFactsIn(processed), EngagementFactsIn(processed), brands.value));
      assert InvalidStatus !in keys && InvalidChannelType !in keys;
    }
  }

  /** The CTR warning is reported exactly when both fact tables and the channel summary are present and a CTR is outside [0, 1]. */
  lemma CtrFinding(processed: map<string, TableValue>, brands: Option<seq<Brand>>, channels: Option<seq<Channel>>)
    ensures CtrOutOfRange in Findings(processed, brands, channels) <==> (
      brands.Some? && channels.Some? && CampaignFactsIn(processed).Some? && EngagementFactsIn(processed).Some? &&
      ChannelSummaryIn(processed).Some? && !CtrsInRange(ChannelSummaryIn(processed).value))
  {
    if brands.Some? && channels.Some? {
      var keys := NullKeyFindings(PrimaryKeyChecks(CampaignFactsIn(processed), EngagementFactsIn(processed), brands.value));
      assert CtrOutOfRange !in keys;
    }
  }

  /**
   * The fatal rules other than null keys: each is reported exactly when
   * validation got as far as its check and the check failed.
   */
  lemma FatalFindings(processed: map<string, TableValue>, brands: Option<seq<Brand>>, channels: Option<seq<Channel>>)
    ensures OrphanBrandId in Findings(processed, brands, channels) <==> (
      brands.Some? && channels.Some? && CampaignFactsIn(processed).Some? &&
      !BrandIdsResolve(CampaignFactsIn(processed).value, brands.value))
    ensures NonPositiveDuration in Findings(processed, brands, channels) <==> (
      brands.Some? && channels.Some? && CampaignFactsIn(processed).Some? && EngagementFactsIn(processed).Some? &&
      !DurationsPositive(EngagementFactsIn(processed).value))
  {
    if brands.Some? && channels.Some? {
      var keys := NullKeyFindings(PrimaryKeyChecks(CampaignFactsIn(processed), EngagementFactsIn(processed), brands.value));
      assert OrphanBrandId !in keys && NonPositiveDuration !in keys;
    }
  }

  /**
   * Once every table is at hand, validation passes exactly when all its
   * findings are warnings.
   */
  lemma OnlyFatalFindingsFail(processed: map<string, TableValue>, brands: Option<seq<Brand>>, channels: Option<seq<Channel>>)
    requires brands.Some? && channels.Some? && CampaignFactsIn(processed).Some? && EngagementFactsIn(processed).Some?
    ensures Verdict(processed, brands, channels).Success? <==>
      forall r :: r in Findings(processed, brands, channels) ==> SeverityOf(r) == Warning
  {
    var campaigns, engagements := CampaignFactsIn(processed).value, EngagementFactsIn(processed).value;
    var checks := PrimaryKeyChecks(CampaignFactsIn(processed), EngagementFactsIn(processed), brands.value);
    var keys := NullKeyFindings(checks);
    var all := Findings(processed, brands, channels);
    assert forall r :: r in keys ==> SeverityOf(r) == Fatal;
    assert keys == [] <==>
      NoNullKeys(CampaignKeys(Some(campaigns))) && NoNullKeys(EngagementKeys(Some(engagements))) &&
      NoNullKeys(Some(BrandKeys(brands.value))) by {
      assert checks[0].0 == CampaignKeys(Some(campaigns)) && checks[1].0 == EngagementKeys(Some(engagements));
    }
    if keys != [] {
      assert keys[0] in all;
    }
    if !BrandIdsResolve(campaigns, brands.value) {
      assert OrphanBrandId in all;
    }
    if !DurationsPositive(engagements) {
      assert NonPositiveDuration in all;
    }
  }

  // ---------------------------------------------------------------------------
  // Properties
  // ---------------------------------------------------------------------------

  /** Two campaign tables that differ at most in their status cells. */
  predicate SameExceptStatus(c1: seq<EnrichedCampaign>, c2: seq<EnrichedCampaign>)
  {
    |c1| == |c2| &&
    forall i :: 0 <= i < |c1| ==> c1[i].(campaign := c1[i].campaign.(status := c2[i].campaign.status)) == c2[i]
  }

  /** The fatal rules do not read the status column. */
  lemma FatalChecksIgnoreStatus(c1: seq<EnrichedCampaign>, c2: seq<EnrichedCampaign>, engagements: seq<Engagement>, brands: seq<Brand>)
    requires SameExceptStatus(c1, c2)
    ensures FatalChecksPass(c1, engagements, brands) == FatalChecksPass(c2, engagements, brands)
  {
    assert forall i :: 0 <= i < |c1| ==> c1[i].campaign.(status := c2[i].campaign.status) == c2[i].campaign;
    var k1, k2 := CampaignKeys(Some(c1)).value, CampaignKeys(Some(c2)).value;
    assert k1 == k2;
    if BrandIdsResolve(c1, brands) {
      forall e | e in c2 ensures exists b :: b in brands && b.brandId == e.campaign.brandId {
        var i :| 0 <= i < |c2| && c2[i] == e;
        assert c1[i] in c1;
      }
    }
    if BrandIdsResolve(c2, brands) {
      forall e | e in c1 ensures exists b :: b in brands && b.brandId == e.campaign.brandId {
        var i :| 0 <= i < |c1| && c1[i] == e;
        assert c2[i] in c2;
      }
    }
  }

  /** Campaign statuses only warn: changing them never changes whether validation passes. */
  lemma StatusesNeverDecide(processed: map<string, TableValue>, c1: seq<EnrichedCampaign>, c2: seq<EnrichedCampaign>,
                            brands: Option<seq<Brand>>, channels: Option<seq<Channel>>)
    requires SameExceptStatus(c1, c2)
    ensures Verdict(processed[FactCampaignPerformance := CampaignFacts(c1)], brands, channels).Success? ==
            Verdict(processed[FactCampaignPerformance := CampaignFacts(c2)], brands, channels).Success?
  {
    var p1 := processed[FactCampaignPerformance := CampaignFacts(c1)];
    var p2 := processed[FactCampaignPerformance := CampaignFacts(c2)];
    assert CampaignFactsIn(p1) == Some(c1) && CampaignFactsIn(p2) == Some(c2);
    assert EngagementFactsIn(p1) == EngagementFactsIn(p2);
    if brands.Some? && EngagementFactsIn(p1).Some? {
      FatalChecksIgnoreStatus(c1, c2, EngagementFactsIn(p1).value, brands.value);
    }
  }

  /** Channel types and the channel summary (CTR) only warn: they never change whether validation passes. */
  lemma ChannelChecksNeverDecide(processed: map<string, TableValue>, summary: TableValue,
                                 brands: Option<seq<Brand>>, ch1: seq<Channel>, ch2: seq<Channel>)
    ensures Verdict(processed, brands, Some(ch1)).Success? ==
            Verdict(processed[AggChannelEffectiveness := summary], brands, Some(ch2)).Success?
  {
    var p2 := processed[AggChannelEffectiveness := summary];
    assert CampaignFactsIn(p2) == CampaignFactsIn(processed);
    assert EngagementFactsIn(p2) == EngagementFactsIn(processed);
  }

  /**
   * A zero-second engagement survives cleaning (which keeps durations >= 0)
   * but fails validation (which demands durations > 0).
   */
  lemma ZeroDurationPassesCleaningFailsValidation(engagements: seq<Engagement>, h: Engagement,
                                                  processed: map<string, TableValue>, brands: Option<seq<Brand>>, channels: Option<seq<Channel>>)
    requires h in engagements && h.durationSec == 0
    requires processed[FactHcpEngagement := EngagementFacts(CleanEngagements(engagements))] == processed
    ensures h in CleanEngagements(engagements)
    ensures Verdict(processed, brands, channels).Failure?
    ensures brands.Some? && channels.Some? && CampaignFactsIn(processed).Some? ==>
      Verdict(processed, brands, channels) == Failure(QualityCheckFailed)
  {
    assert EngagementFactsIn(processed) == Some(CleanEngagements(engagements));
    assert !DurationsPositive(CleanEngagements(engagements));
  }

  /**
   * The empty map a failed transform returns does not fail as a quality check:
   * once the reference files are read, subscripting the absent campaign table
   * raises a TypeError first.
   */
  lemma EmptyResultIsMissingTable(brands: seq<Brand>, channels: seq<Channel>)
    ensures Verdict(map[], Some(brands), Some(channels)) == Failure(TableMissing)
  {
  }

  /** A non-empty transform result always carries both fact tables and the channel summary. */
  lemma TransformResultHasTables(staging: Staging)
    requires Transform(staging) != map[]
    ensures CampaignFactsIn(Transform(staging)).Some?
    ensures EngagementFactsIn(Transform(staging)).Some?
    ensures ChannelSummaryIn(Transform(staging)).Some?
  {
  }

  /**
   * When every staged performance row has non-negative clicks, the CTR
   * warning never fires on a transform result.
   */
  lemma CtrWarningNeverFiresOnTransform(staging: Staging)
    requires Transform(staging) != map[]
    requires var t := StagedTables(staging, Manifest);
      forall p :: p in PerformanceOf(t).value ==> p.clicks >= 0
    ensures CtrsInRange(ChannelSummaryIn(Transform(staging)).value)
  {
    var t := StagedTables(staging, Manifest);
    var o := RunStages(t).value;
    var performance := CleanPerformance(PerformanceOf(t).value);
    var campaigns := CleanCampaigns(CampaignsOf(t).value).value;
    var enriched := EnrichCampaigns(campaigns, performance);
    var channels := ChannelsOf(t).value;
    assert o.aggChannelEffectiveness == AggregateByChannel(enriched, performance, channels);
    assert Transform(staging) == Package(o);
    assert ChannelSummaryIn(Transform(staging)) == Some(o.aggChannelEffectiveness);
    assert forall p :: p in performance ==> PerformanceConsistent(p) && p.clicks >= 0;
    CtrWithinUnitRange(enriched, performance, channels);
    UnitCtrsInRange(o.aggChannelEffectiveness);
  }

  /** A NaN or a finite CTR within [0, 1] never trips the warning. */
  lemma UnitCtrsInRange(agg: map<string, ChannelEffectiveness>)
    requires forall name :: name in agg ==> agg[name].ctr == NaN || (agg[name].ctr.Finite? && 0.0 <= agg[name].ctr.value <= 1.0)
    ensures CtrsInRange(agg)
  {
  }
}
