/** The account-wide transit-gateway collector. It has no scope of its own. */
module TransitGatewayCollectors {
  import opened Aws

  const QuotaTransitGatewaysPerAccount := "L-A2478D36"
  const ServiceCodeEc2 := "ec2"
  const TransitGatewaysPerAccountMetric := "transit_gateways_per_account"

  /** A single page of at most 100 gateways, starting at the beginning. */
  function TransitGatewaysRequest(): DescribeTransitGatewaysInput
  {
    DescribeTransitGatewaysInput(Some(false), Some(100), None)
  }

  /** The number of gateways on the first page; a further page announced by
      `nextToken` is not requested. */
  function TransitGatewaysPerAccountUsage(ec2: Ec2Client): (r: Reading)
    ensures var out := ec2.describeTransitGateways(TransitGatewaysRequest());
            && (r.err.Some? <==> out.Err?)
            && (out.Err? ==> r == Reading(0.0, Some(out.error)))
            && (out.Ok? ==> r.value == |out.value.transitGateways| as real)
  {
    match ec2.describeTransitGateways(TransitGatewaysRequest())
    case Err(e) => Reading(0.0, Some(e))
    case Ok(out) => Reading(|out.transitGateways| as real, None)
  }

  const TransitGatewaysPerAccountId := "all"
  const TransitGatewaysPerAccountName := TransitGatewaysPerAccountMetric
}
