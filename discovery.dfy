/** Discovery: the ordered list of collectors for one run. One routes
    collector per route table found in the VPC, then the seven fixed ones. */
module Discovery {
  import opened Aws
  import opened Collectors
  import V = VpcCollectors

  /** The route-table listing of the VPC; it is the same request the
      route-tables-per-VPC usage sends. */
  function RouteTablesQuery(vpcId: string): DescribeRouteTablesInput
  {
    V.RouteTablesPerVpcRequest(vpcId)
  }

  /** The tables a listing found; a failed listing found none. */
  function FoundRouteTables(found: Outcome<DescribeRouteTablesOutput>): seq<RouteTable>
  {
    if found.Ok? then found.value.routeTables else []
  }

  /** One routes collector per table, in the order the tables were listed. */
  function RouteCollectors(tables: seq<RouteTable>): (cs: seq<Collector>)
    ensures |cs| == |tables|
    ensures forall i :: 0 <= i < |tables| ==> cs[i] == RoutesPerRouteTableCollector(tables[i].routeTableId)
  {
    if tables == [] then []
    else RouteCollectors(tables[..|tables| - 1])
         + [RoutesPerRouteTableCollector(tables[|tables| - 1].routeTableId)]
  }

  /** The seven collectors added on every run, in their order. */
  function FixedCollectors(hostedZoneId: string, region: string, vpcId: string): seq<Collector>
  {
    [ TransitGatewaysPerAcctCollector,
      Route53RecordsPerHostedZoneCollector(hostedZoneId),
      Ipv4BlocksPerVpcCollector(vpcId),
      RouteTablesPerVpcCollector(vpcId),
      InterfaceVpcEndpointsPerVpcCollector(vpcId),
      SubnetsPerVpcCollector(vpcId),
      VpcsPerRegionCollector(region) ]
  }

  /** The collectors discovered from the answer to the route-table listing:
      the routes collectors come first and are exactly one per table found,
      and the seven fixed collectors close the list. A failed listing
      degrades to the fixed collectors alone. */
  function Discovered(found: Outcome<DescribeRouteTablesOutput>,
                      hostedZoneId: string, region: string, vpcId: string): (cs: seq<Collector>)
    ensures |cs| == |FoundRouteTables(found)| + 7
    ensures forall i :: 0 <= i < |FoundRouteTables(found)| ==>
              cs[i] == RoutesPerRouteTableCollector(FoundRouteTables(found)[i].routeTableId)
    ensures cs[|FoundRouteTables(found)|..] == FixedCollectors(hostedZoneId, region, vpcId)
    ensures forall i :: 0 <= i < |cs| ==>
              (cs[i].RoutesPerRouteTableCollector? <==> i < |FoundRouteTables(found)|)
    ensures found.Err? ==> cs == FixedCollectors(hostedZoneId, region, vpcId)
  {
    RouteCollectors(FoundRouteTables(found)) + FixedCollectors(hostedZoneId, region, vpcId)
  }

  method SetupCollection(ec2: Ec2Client, hostedZoneId: string, region: string, vpcId: string)
    returns (allCollectors: seq<Collector>)
    ensures allCollectors == Discovered(ec2.describeRouteTables(RouteTablesQuery(vpcId)),
                                        hostedZoneId, region, vpcId)
  {
    allCollectors := [];
    var routeTables := ec2.describeRouteTables(RouteTablesQuery(vpcId));
    if routeTables.Ok? {
      var tables := routeTables.value.routeTables;
      for i := 0 to |tables|
        invariant allCollectors == RouteCollectors(tables[..i])
      {
        assert tables[..i + 1][..i] == tables[..i];
        assert tables[..i + 1][i] == tables[i];
        allCollectors := allCollectors + [RoutesPerRouteTableCollector(tables[i].routeTableId)];
      }
      assert tables[..|tables|] == tables;
    }
    ghost var routeCollectors := allCollectors;
    assert routeCollectors == RouteCollectors(FoundRouteTables(routeTables));
    allCollectors := allCollectors + [TransitGatewaysPerAcctCollector];
    allCollectors := allCollectors + [Route53RecordsPerHostedZoneCollector(hostedZoneId)];
    allCollectors := allCollectors + [Ipv4BlocksPerVpcCollector(vpcId)];
    allCollectors := allCollectors + [RouteTablesPerVpcCollector(vpcId)];
    allCollectors := allCollectors + [InterfaceVpcEndpointsPerVpcCollector(vpcId)];
    allCollectors := allCollectors + [SubnetsPerVpcCollector(vpcId)];
    allCollectors := allCollectors + [VpcsPerRegionCollector(region)];
    FixedAppended(routeCollectors, hostedZoneId, region, vpcId);
  }

  /** Appending the seven fixed collectors one at a time appends FixedCollectors. */
  lemma FixedAppended(prefix: seq<Collector>, hostedZoneId: string, region: string, vpcId: string)
    ensures prefix + [TransitGatewaysPerAcctCollector] + [Route53RecordsPerHostedZoneCollector(hostedZoneId)]
              + [Ipv4BlocksPerVpcCollector(vpcId)] + [RouteTablesPerVpcCollector(vpcId)]
              + [InterfaceVpcEndpointsPerVpcCollector(vpcId)] + [SubnetsPerVpcCollector(vpcId)]
              + [VpcsPerRegionCollector(region)]
         == prefix + FixedCollectors(hostedZoneId, region, vpcId)
  {
  }

  /** Seen at one moment, the number of routes collectors discovered equals
      the usage the route-tables-per-VPC collector reports for the same VPC. */
  lemma RouteCollectorCountMatchesRouteTableUsage(clients: Clients, hostedZoneId: string,
                                                  region: string, vpcId: string)
    requires clients.ec2.describeRouteTables(RouteTablesQuery(vpcId)).Ok?
    ensures var cs := Discovered(clients.ec2.describeRouteTables(RouteTablesQuery(vpcId)),
                                 hostedZoneId, region, vpcId);
            (|cs| - 7) as real == RouteTablesPerVpcCollector(vpcId).Usage(clients).value
  {
  }
}
