/**
 * Rows of the five staged tables, as read from their CSV files.
 * Identifier columns may be empty in a CSV file, so they are optional (a Key);
 * None stands for the NaN that an empty cell becomes. The brand and channel
 * names are grouping keys, so they are optional too: a group-by drops a row
 * whose name is NaN. Dates are day numbers
 * (days since 1970-01-01) once parsed.
 */
module Tables {
  import opened Wrappers

  /** An identifier cell: None when the cell is empty. */
  type Key = Option<int>

  /** A date cell before parsing: empty, a calendar day, or text no date parser accepts. */
  datatype DateCell = NoDate | Day(day: int) | Unparseable(text: string)

  /** campaigns.csv */
  datatype Campaign = Campaign(
    campaignId: Key,
    brandId: Key,
    channelId: Key,
    campaignName: string,
    startDate: DateCell,
    endDate: DateCell,
    status: string,
    plannedBudget: real)

  /** channel_performance.csv */
  datatype Performance = Performance(
    performanceId: Key,
    campaignId: Key,
    impressions: int,
    clicks: int,
    conversions: int,
    spend: real)

  /** hcp_engagements.csv: one interaction of a healthcare professional with a campaign. */
  datatype Engagement = Engagement(
    engagementId: Key,
    campaignId: Key,
    hcpId: Key,
    interactionType: string,
    interactionDate: string,
    durationSec: int)

  /** brands.csv */
  datatype Brand = Brand(
    brandId: Key,
    brandName: Option<string>,  // None: empty cell
    therapeuticArea: string,
    launchYear: int,
    manufacturer: string)

  /** channels.csv */
  datatype Channel = Channel(
    channelId: Key,
    channelName: Option<string>,  // None: empty cell
    channelType: string)

  function PerformanceCampaignId(p: Performance): Key { p.campaignId }
  function EngagementCampaignId(h: Engagement): Key { h.campaignId }
  function BrandIdOf(b: Brand): Key { b.brandId }
  function ChannelIdOf(ch: Channel): Key { ch.channelId }
}
