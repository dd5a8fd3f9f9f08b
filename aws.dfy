/** The remote services the collectors talk to, reduced to their interface boundary.

    Each client is a record of oracle functions: the answer to a call is the
    function applied to the request, so a contract can name the exact request
    a collector sends. The request fields are the ones the collectors
    set; of the responses only the lists the collectors count and the values
    they read matter. The fields of the list elements (a route's destination,
    a subnet's id and the like) are placeholders that give each element type
    a shape; nothing reads them. */
module Aws {

  datatype Option<+T> = None | Some(value: T)

  /** The outcome of one remote call; `error` is the text of Go's `err.Error()`. */
  datatype Outcome<+T> = Ok(value: T) | Err(error: string)

  /** What every collector operation returns: Go's `(float64, error)` pair.
      The value is always present, also when `err` is set. */
  datatype Reading = Reading(value: real, err: Option<string>)

  // ---- Service Quotas ----

  datatype GetServiceQuotaInput = GetServiceQuotaInput(quotaCode: string, serviceCode: string)

  /** `Quota.Value` is a pointer in the SDK; `None` stands for nil. */
  datatype GetServiceQuotaOutput = GetServiceQuotaOutput(quotaValue: Option<real>)

  datatype ServiceQuotaClient = ServiceQuotaClient(
    getServiceQuota: GetServiceQuotaInput -> Outcome<GetServiceQuotaOutput>)

  // ---- EC2 ----

  datatype Filter = Filter(name: string, values: seq<string>)

  datatype CidrBlockAssociation = CidrBlockAssociation(associationId: string, cidrBlock: string)
  datatype Vpc = Vpc(vpcId: string, cidrBlockAssociationSet: seq<CidrBlockAssociation>)
  datatype DescribeVpcsInput = DescribeVpcsInput(dryRun: Option<bool>, vpcIds: seq<string>)
  datatype DescribeVpcsOutput = DescribeVpcsOutput(vpcs: seq<Vpc>)

  datatype Subnet = Subnet(subnetId: string)
  datatype DescribeSubnetsInput = DescribeSubnetsInput(filters: seq<Filter>)
  datatype DescribeSubnetsOutput = DescribeSubnetsOutput(subnets: seq<Subnet>)

  datatype VpcEndpoint = VpcEndpoint(vpcEndpointId: string)
  datatype DescribeVpcEndpointsInput = DescribeVpcEndpointsInput(filters: seq<Filter>)
  datatype DescribeVpcEndpointsOutput = DescribeVpcEndpointsOutput(vpcEndpoints: seq<VpcEndpoint>)

  datatype Route = Route(destinationCidrBlock: string)
  datatype RouteTable = RouteTable(routeTableId: string, routes: seq<Route>)
  datatype DescribeRouteTablesInput = DescribeRouteTablesInput(filters: seq<Filter>, routeTableIds: seq<string>)
  datatype DescribeRouteTablesOutput = DescribeRouteTablesOutput(routeTables: seq<RouteTable>)

  datatype TransitGateway = TransitGateway(transitGatewayId: string)
  datatype DescribeTransitGatewaysInput = DescribeTransitGatewaysInput(
    dryRun: Option<bool>, maxResults: Option<int>, nextToken: Option<string>)
  /** `nextToken` is set by the service when more pages exist. */
  datatype DescribeTransitGatewaysOutput = DescribeTransitGatewaysOutput(
    transitGateways: seq<TransitGateway>, nextToken: Option<string>)

  datatype Ec2Client = Ec2Client(
    describeVpcs: DescribeVpcsInput -> Outcome<DescribeVpcsOutput>,
    describeSubnets: DescribeSubnetsInput -> Outcome<DescribeSubnetsOutput>,
    describeVpcEndpoints: DescribeVpcEndpointsInput -> Outcome<DescribeVpcEndpointsOutput>,
    describeRouteTables: DescribeRouteTablesInput -> Outcome<DescribeRouteTablesOutput>,
    describeTransitGateways: DescribeTransitGatewaysInput -> Outcome<DescribeTransitGatewaysOutput>)

  // ---- Route 53 ----

  datatype HostedZoneLimitType = MaxRrsetsByZone | MaxVpcsAssociatedByZone
  datatype GetHostedZoneLimitInput = GetHostedZoneLimitInput(hostedZoneId: string, limitType: HostedZoneLimitType)
  datatype HostedZoneLimit = HostedZoneLimit(limitType: HostedZoneLimitType, value: int)
  datatype GetHostedZoneLimitOutput = GetHostedZoneLimitOutput(limit: HostedZoneLimit, count: int)

  datatype Route53Client = Route53Client(
    getHostedZoneLimit: GetHostedZoneLimitInput -> Outcome<GetHostedZoneLimitOutput>)
}
