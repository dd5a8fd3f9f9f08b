/** The Route 53 records-per-hosted-zone collector. Both its quota and its
    usage come from one hosted-zone-limit query; it never asks Service Quotas. */
module Route53Collectors {
  import opened Aws

  const RecordsPerHostedZoneMetric := "resource_records_per_hosted_zone"

  /** The request both operations send: the zone's limit on record sets. */
  function HostedZoneLimitRequest(hostedZoneId: string): GetHostedZoneLimitInput
  {
    GetHostedZoneLimitInput(hostedZoneId, MaxRrsetsByZone)
  }

  /** The zone's limit value. */
  function RecordsPerHostedZoneQuota(r53: Route53Client, hostedZoneId: string): (r: Reading)
    ensures var out := r53.getHostedZoneLimit(HostedZoneLimitRequest(hostedZoneId));
            && (r.err.Some? <==> out.Err?)
            && (out.Err? ==> r == Reading(0.0, Some(out.error)))
            && (out.Ok? ==> r.value == out.value.limit.value as real)
  {
    match r53.getHostedZoneLimit(HostedZoneLimitRequest(hostedZoneId))
    case Err(e) => Reading(0.0, Some(e))
    case Ok(out) => Reading(out.limit.value as real, None)
  }

  /** The zone's current record-set count, from the same request. */
  function RecordsPerHostedZoneUsage(r53: Route53Client, hostedZoneId: string): (r: Reading)
    ensures var out := r53.getHostedZoneLimit(HostedZoneLimitRequest(hostedZoneId));
            && (r.err.Some? <==> out.Err?)
            && (out.Err? ==> r == Reading(0.0, Some(out.error)))
            && (out.Ok? ==> r.value == out.value.count as real)
  {
    match r53.getHostedZoneLimit(HostedZoneLimitRequest(hostedZoneId))
    case Err(e) => Reading(0.0, Some(e))
    case Ok(out) => Reading(out.count as real, None)
  }

  function RecordsPerHostedZoneId(hostedZoneId: string): string { "hosted_zone_" + hostedZoneId }
  function RecordsPerHostedZoneName(hostedZoneId: string): string { RecordsPerHostedZoneMetric + "_" + hostedZoneId }
}
