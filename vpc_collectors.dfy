/** The six VPC-family collectors: their quota codes, their usage queries and
    their label strings, each as a function of the collector's scope (a
    region, a VPC id or a route-table id). */
module VpcCollectors {
  import opened Aws

  const QuotaVpcsPerRegion := "L-F678F1CE"
  const QuotaSubnetsPerVpc := "L-407747CB"
  const QuotaInterfaceVpcEndpointsPerVpc := "L-29B6F2EB"
  const QuotaRouteTablesPerVpc := "L-589F43AA"
  const QuotaRoutesPerRouteTable := "L-93826ACB"
  const QuotaIpv4BlocksPerVpc := "L-83CA0A9D"
  const ServiceCodeVpc := "vpc"

  /** The error text of the IPv4-block usage when the VPC lookup does not
      return exactly one VPC (spelled as the code writes it). */
  const UnexpectedVpcCount := "Unexcpected number of VPCs returned"

  /** The equality filter on a VPC id used by the per-VPC listings. */
  function VpcIdFilter(vpcId: string): seq<Filter>
  {
    [Filter("vpc-id", [vpcId])]
  }

  // ---- VPCs per region ----

  const VpcsPerRegionMetric := "vpcs_per_region"

  function VpcsPerRegionRequest(): DescribeVpcsInput { DescribeVpcsInput(None, []) }

  /** The number of VPCs the unfiltered listing returns. */
  function VpcsPerRegionUsage(ec2: Ec2Client): (r: Reading)
    ensures var out := ec2.describeVpcs(VpcsPerRegionRequest());
            && (r.err.Some? <==> out.Err?)
            && (out.Err? ==> r == Reading(0.0, Some(out.error)))
            && (out.Ok? ==> r.value == |out.value.vpcs| as real)
  {
    match ec2.describeVpcs(VpcsPerRegionRequest())
    case Err(e) => Reading(0.0, Some(e))
    case Ok(out) => Reading(|out.vpcs| as real, None)
  }

  function VpcsPerRegionId(region: string): string { "region_" + region }
  function VpcsPerRegionName(region: string): string { VpcsPerRegionMetric + "_" + region }

  // ---- Subnets per VPC ----

  const SubnetsPerVpcMetric := "subnets_per_vpc"

  function SubnetsPerVpcRequest(vpcId: string): DescribeSubnetsInput
  {
    DescribeSubnetsInput(VpcIdFilter(vpcId))
  }

  /** The number of subnets listed for the VPC. */
  function SubnetsPerVpcUsage(ec2: Ec2Client, vpcId: string): (r: Reading)
    ensures var out := ec2.describeSubnets(SubnetsPerVpcRequest(vpcId));
            && (r.err.Some? <==> out.Err?)
            && (out.Err? ==> r == Reading(0.0, Some(out.error)))
            && (out.Ok? ==> r.value == |out.value.subnets| as real)
  {
    match ec2.describeSubnets(SubnetsPerVpcRequest(vpcId))
    case Err(e) => Reading(0.0, Some(e))
    case Ok(out) => Reading(|out.subnets| as real, None)
  }

  function SubnetsPerVpcId(vpcId: string): string { "vpc_" + vpcId }
  function SubnetsPerVpcName(vpcId: string): string { SubnetsPerVpcMetric + "_" + vpcId }

  // ---- Interface VPC endpoints per VPC ----

  const InterfaceVpcEndpointsPerVpcMetric := "interface_vpc_endpoints_per_vpc"

  function InterfaceVpcEndpointsRequest(vpcId: string): DescribeVpcEndpointsInput
  {
    DescribeVpcEndpointsInput(VpcIdFilter(vpcId))
  }

  /** The number of VPC endpoints listed for the VPC. */
  function InterfaceVpcEndpointsPerVpcUsage(ec2: Ec2Client, vpcId: string): (r: Reading)
    ensures var out := ec2.describeVpcEndpoints(InterfaceVpcEndpointsRequest(vpcId));
            && (r.err.Some? <==> out.Err?)
            && (out.Err? ==> r == Reading(0.0, Some(out.error)))
            && (out.Ok? ==> r.value == |out.value.vpcEndpoints| as real)
  {
    match ec2.describeVpcEndpoints(InterfaceVpcEndpointsRequest(vpcId))
    case Err(e) => Reading(0.0, Some(e))
    case Ok(out) => Reading(|out.vpcEndpoints| as real, None)
  }

  function InterfaceVpcEndpointsPerVpcId(vpcId: string): string { "vpc_" + vpcId }
  function InterfaceVpcEndpointsPerVpcName(vpcId: string): string { InterfaceVpcEndpointsPerVpcMetric + "_" + vpcId }

  // ---- Routes per route table ----

  /** The metric name carries a `_collector` suffix that the label name does not. */
  const RoutesPerRouteTableMetric := "routes_per_route_table_collector"

  function RoutesPerRouteTableRequest(routeTableId: string): DescribeRouteTablesInput
  {
    DescribeRouteTablesInput([], [routeTableId])
  }

  /** The usage reads the first returned route table without a bounds check:
      a successful answer must list at least one table. */
  predicate RoutesPerRouteTableUsageDefined(ec2: Ec2Client, routeTableId: string)
  {
    var out := ec2.describeRouteTables(RoutesPerRouteTableRequest(routeTableId));
    out.Ok? ==> |out.value.routeTables| > 0
  }

  /** The number of routes of the first route table returned for the id. */
  function RoutesPerRouteTableUsage(ec2: Ec2Client, routeTableId: string): (r: Reading)
    requires RoutesPerRouteTableUsageDefined(ec2, routeTableId)
    ensures var out := ec2.describeRouteTables(RoutesPerRouteTableRequest(routeTableId));
            && (r.err.Some? <==> out.Err?)
            && (out.Err? ==> r == Reading(0.0, Some(out.error)))
            && (out.Ok? ==> r.value == |out.value.routeTables[0].routes| as real)
  {
    match ec2.describeRouteTables(RoutesPerRouteTableRequest(routeTableId))
    case Err(e) => Reading(0.0, Some(e))
    case Ok(out) => Reading(|out.routeTables[0].routes| as real, None)
  }

  function RoutesPerRouteTableId(routeTableId: string): string { "route_table_" + routeTableId }
  function RoutesPerRouteTableName(routeTableId: string): string { "routes_per_route_table_" + routeTableId }

  // ---- Route tables per VPC ----

  const RouteTablesPerVpcMetric := "route_tables_per_vpc"

  function RouteTablesPerVpcRequest(vpcId: string): DescribeRouteTablesInput
  {
    DescribeRouteTablesInput(VpcIdFilter(vpcId), [])
  }

  /** The number of route tables listed for the VPC. */
  function RouteTablesPerVpcUsage(ec2: Ec2Client, vpcId: string): (r: Reading)
    ensures var out := ec2.describeRouteTables(RouteTablesPerVpcRequest(vpcId));
            && (r.err.Some? <==> out.Err?)
            && (out.Err? ==> r == Reading(0.0, Some(out.error)))
            && (out.Ok? ==> r.value == |out.value.routeTables| as real)
  {
    match ec2.describeRouteTables(RouteTablesPerVpcRequest(vpcId))
    case Err(e) => Reading(0.0, Some(e))
    case Ok(out) => Reading(|out.routeTables| as real, None)
  }

  function RouteTablesPerVpcId(vpcId: string): string { "vpc_" + vpcId }
  function RouteTablesPerVpcName(vpcId: string): string { RouteTablesPerVpcMetric + "_" + vpcId }

  // ---- IPv4 CIDR blocks per VPC ----

  const Ipv4BlocksPerVpcMetric := "ipv4_blocks_per_vpc"

  function Ipv4BlocksPerVpcRequest(vpcId: string): DescribeVpcsInput
  {
    DescribeVpcsInput(Some(false), [vpcId])
  }

  /** The number of CIDR associations of the one VPC returned for the id; any
      other number of returned VPCs is an error, reported with value 0. */
  function Ipv4BlocksPerVpcUsage(ec2: Ec2Client, vpcId: string): (r: Reading)
    ensures var out := ec2.describeVpcs(Ipv4BlocksPerVpcRequest(vpcId));
            && (r.err.Some? <==> out.Err? || |out.value.vpcs| != 1)
            && (out.Err? ==> r == Reading(0.0, Some(out.error)))
            && (out.Ok? && |out.value.vpcs| != 1 ==> r == Reading(0.0, Some(UnexpectedVpcCount)))
            && (out.Ok? && |out.value.vpcs| == 1 ==>
                  r.value == |out.value.vpcs[0].cidrBlockAssociationSet| as real)
  {
    match ec2.describeVpcs(Ipv4BlocksPerVpcRequest(vpcId))
    case Err(e) => Reading(0.0, Some(e))
    case Ok(out) =>
      if |out.vpcs| != 1 then Reading(0.0, Some(UnexpectedVpcCount))
      else Reading(|out.vpcs[0].cidrBlockAssociationSet| as real, None)
  }

  function Ipv4BlocksPerVpcId(vpcId: string): string { "vpc_" + vpcId }
  function Ipv4BlocksPerVpcName(vpcId: string): string { Ipv4BlocksPerVpcMetric + "_" + vpcId }
}
