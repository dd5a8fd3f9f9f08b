/** The quota-collector contract: every collector kind offers the same five
    operations, Quota, Usage, Name, Id and MetricName. The eight kinds are the
    variants of one datatype, each carrying only its scope. */
module Collectors {
  import opened Aws
  import opened ServiceQuotas
  import V = VpcCollectors
  import R = Route53Collectors
  import T = TransitGatewayCollectors

  /** The clients a collector is built with. */
  datatype Clients = Clients(serviceQuota: ServiceQuotaClient, ec2: Ec2Client, route53: Route53Client)

  /** The kind of a collector: the tag the aggregation groups by. */
  datatype CollectorKind =
    | RoutesPerRouteTable
    | TransitGatewaysPerAccount
    | RecordsPerHostedZone
    | Ipv4BlocksPerVpc
    | RouteTablesPerVpc
    | InterfaceVpcEndpointsPerVpc
    | SubnetsPerVpc
    | VpcsPerRegion

  /** The metric name shared by every collector of a kind. */
  function MetricNameOf(k: CollectorKind): string
  {
    match k
    case RoutesPerRouteTable => V.RoutesPerRouteTableMetric
    case TransitGatewaysPerAccount => T.TransitGatewaysPerAccountMetric
    case RecordsPerHostedZone => R.RecordsPerHostedZoneMetric
    case Ipv4BlocksPerVpc => V.Ipv4BlocksPerVpcMetric
    case RouteTablesPerVpc => V.RouteTablesPerVpcMetric
    case InterfaceVpcEndpointsPerVpc => V.InterfaceVpcEndpointsPerVpcMetric
    case SubnetsPerVpc => V.SubnetsPerVpcMetric
    case VpcsPerRegion => V.VpcsPerRegionMetric
  }

  /** A Service Quotas lookup key. */
  datatype QuotaCode = QuotaCode(serviceCode: string, quotaCode: string)

  datatype Collector =
    | RoutesPerRouteTableCollector(routeTableId: string)
    | TransitGatewaysPerAcctCollector
    | Route53RecordsPerHostedZoneCollector(hostedZoneId: string)
    | Ipv4BlocksPerVpcCollector(vpcId: string)
    | RouteTablesPerVpcCollector(vpcId: string)
    | InterfaceVpcEndpointsPerVpcCollector(vpcId: string)
    | SubnetsPerVpcCollector(vpcId: string)
    | VpcsPerRegionCollector(region: string)
  {
    function Kind(): CollectorKind
    {
      match this
      case RoutesPerRouteTableCollector(_) => RoutesPerRouteTable
      case TransitGatewaysPerAcctCollector => TransitGatewaysPerAccount
      case Route53RecordsPerHostedZoneCollector(_) => RecordsPerHostedZone
      case Ipv4BlocksPerVpcCollector(_) => Ipv4BlocksPerVpc
      case RouteTablesPerVpcCollector(_) => RouteTablesPerVpc
      case InterfaceVpcEndpointsPerVpcCollector(_) => InterfaceVpcEndpointsPerVpc
      case SubnetsPerVpcCollector(_) => SubnetsPerVpc
      case VpcsPerRegionCollector(_) => VpcsPerRegion
    }

    /** The scope string the collector was built with ("" for the
        account-wide transit-gateway collector, which has none). */
    function Scope(): string
    {
      match this
      case RoutesPerRouteTableCollector(id) => id
      case TransitGatewaysPerAcctCollector => ""
      case Route53RecordsPerHostedZoneCollector(id) => id
      case Ipv4BlocksPerVpcCollector(id) => id
      case RouteTablesPerVpcCollector(id) => id
      case InterfaceVpcEndpointsPerVpcCollector(id) => id
      case SubnetsPerVpcCollector(id) => id
      case VpcsPerRegionCollector(region) => region
    }

    /** The label value of the collector's points. */
    function Id(): string
    {
      match this
      case RoutesPerRouteTableCollector(id) => V.RoutesPerRouteTableId(id)
      case TransitGatewaysPerAcctCollector => T.TransitGatewaysPerAccountId
      case Route53RecordsPerHostedZoneCollector(id) => R.RecordsPerHostedZoneId(id)
      case Ipv4BlocksPerVpcCollector(id) => V.Ipv4BlocksPerVpcId(id)
      case RouteTablesPerVpcCollector(id) => V.RouteTablesPerVpcId(id)
      case InterfaceVpcEndpointsPerVpcCollector(id) => V.InterfaceVpcEndpointsPerVpcId(id)
      case SubnetsPerVpcCollector(id) => V.SubnetsPerVpcId(id)
      case VpcsPerRegionCollector(region) => V.VpcsPerRegionId(region)
    }

    /** The human-readable name used in the plain report. */
    function Name(): string
    {
      match this
      case RoutesPerRouteTableCollector(id) => V.RoutesPerRouteTableName(id)
      case TransitGatewaysPerAcctCollector => T.TransitGatewaysPerAccountName
      case Route53RecordsPerHostedZoneCollector(id) => R.RecordsPerHostedZoneName(id)
      case Ipv4BlocksPerVpcCollector(id) => V.Ipv4BlocksPerVpcName(id)
      case RouteTablesPerVpcCollector(id) => V.RouteTablesPerVpcName(id)
      case InterfaceVpcEndpointsPerVpcCollector(id) => V.InterfaceVpcEndpointsPerVpcName(id)
      case SubnetsPerVpcCollector(id) => V.SubnetsPerVpcName(id)
      case VpcsPerRegionCollector(region) => V.VpcsPerRegionName(region)
    }

    function MetricName(): string
    {
      MetricNameOf(Kind())
    }

    /** The Service Quotas key the quota is looked up under; the hosted-zone
        collector has none. */
    function ServiceQuotaCode(): Option<QuotaCode>
    {
      match this
      case RoutesPerRouteTableCollector(_) => Some(QuotaCode(V.ServiceCodeVpc, V.QuotaRoutesPerRouteTable))
      case TransitGatewaysPerAcctCollector => Some(QuotaCode(T.ServiceCodeEc2, T.QuotaTransitGatewaysPerAccount))
      case Route53RecordsPerHostedZoneCollector(_) => None
      case Ipv4BlocksPerVpcCollector(_) => Some(QuotaCode(V.ServiceCodeVpc, V.QuotaIpv4BlocksPerVpc))
      case RouteTablesPerVpcCollector(_) => Some(QuotaCode(V.ServiceCodeVpc, V.QuotaRouteTablesPerVpc))
      case InterfaceVpcEndpointsPerVpcCollector(_) => Some(QuotaCode(V.ServiceCodeVpc, V.QuotaInterfaceVpcEndpointsPerVpc))
      case SubnetsPerVpcCollector(_) => Some(QuotaCode(V.ServiceCodeVpc, V.QuotaSubnetsPerVpc))
      case VpcsPerRegionCollector(_) => Some(QuotaCode(V.ServiceCodeVpc, V.QuotaVpcsPerRegion))
    }

    /** The answers Quota reads without a check are well-shaped. */
    predicate QuotaDefined(clients: Clients)
    {
      match ServiceQuotaCode()
      case Some(code) => QuotaValuePresent(clients.serviceQuota, code.serviceCode, code.quotaCode)
      case None => true
    }

    /** The answers Usage reads without a check are well-shaped. */
    predicate UsageDefined(clients: Clients)
    {
      RoutesPerRouteTableCollector? ==> V.RoutesPerRouteTableUsageDefined(clients.ec2, routeTableId)
    }

    /** Every kind with a Service Quotas key delegates to the shared lookup
        with that key; the hosted-zone kind reads its zone limit instead. A
        failed lookup always comes back as 0. */
    function Quota(clients: Clients): (r: Reading)
      requires QuotaDefined(clients)
      ensures r.err.Some? ==> r.value == 0.0
      ensures ServiceQuotaCode().Some? ==>
                r == GetQuotaValue(clients.serviceQuota, ServiceQuotaCode().value.serviceCode,
                                   ServiceQuotaCode().value.quotaCode)
      ensures Route53RecordsPerHostedZoneCollector? ==>
                r == R.RecordsPerHostedZoneQuota(clients.route53, hostedZoneId)
    {
      match ServiceQuotaCode()
      case Some(code) => GetQuotaValue(clients.serviceQuota, code.serviceCode, code.quotaCode)
      case None => R.RecordsPerHostedZoneQuota(clients.route53, hostedZoneId)
    }

    /** The kind's own usage query. A failed query always comes back as 0, and
        every kind but the hosted-zone one counts listed resources, so its
        value is never negative. */
    function Usage(clients: Clients): (r: Reading)
      requires UsageDefined(clients)
      ensures r.err.Some? ==> r.value == 0.0
      ensures !Route53RecordsPerHostedZoneCollector? ==> r.value >= 0.0
      ensures RoutesPerRouteTableCollector? ==> r == V.RoutesPerRouteTableUsage(clients.ec2, routeTableId)
      ensures TransitGatewaysPerAcctCollector? ==> r == T.TransitGatewaysPerAccountUsage(clients.ec2)
      ensures Route53RecordsPerHostedZoneCollector? ==> r == R.RecordsPerHostedZoneUsage(clients.route53, hostedZoneId)
      ensures Ipv4BlocksPerVpcCollector? ==> r == V.Ipv4BlocksPerVpcUsage(clients.ec2, vpcId)
      ensures RouteTablesPerVpcCollector? ==> r == V.RouteTablesPerVpcUsage(clients.ec2, vpcId)
      ensures InterfaceVpcEndpointsPerVpcCollector? ==> r == V.InterfaceVpcEndpointsPerVpcUsage(clients.ec2, vpcId)
      ensures SubnetsPerVpcCollector? ==> r == V.SubnetsPerVpcUsage(clients.ec2, vpcId)
      ensures VpcsPerRegionCollector? ==> r == V.VpcsPerRegionUsage(clients.ec2)
    {
      match this
      case RoutesPerRouteTableCollector(id) => V.RoutesPerRouteTableUsage(clients.ec2, id)
      case TransitGatewaysPerAcctCollector => T.TransitGatewaysPerAccountUsage(clients.ec2)
      case Route53RecordsPerHostedZoneCollector(id) => R.RecordsPerHostedZoneUsage(clients.route53, id)
      case Ipv4BlocksPerVpcCollector(id) => V.Ipv4BlocksPerVpcUsage(clients.ec2, id)
      case RouteTablesPerVpcCollector(id) => V.RouteTablesPerVpcUsage(clients.ec2, id)
      case InterfaceVpcEndpointsPerVpcCollector(id) => V.InterfaceVpcEndpointsPerVpcUsage(clients.ec2, id)
      case SubnetsPerVpcCollector(id) => V.SubnetsPerVpcUsage(clients.ec2, id)
      case VpcsPerRegionCollector(region) => V.VpcsPerRegionUsage(clients.ec2)
    }
  }

  /** The literal prefix that Id puts before the scope, for every kind whose
      Id is built from its scope. */
  function IdPrefix(k: CollectorKind): string
  {
    match k
    case RoutesPerRouteTable => "route_table_"
    case TransitGatewaysPerAccount => ""
    case RecordsPerHostedZone => "hosted_zone_"
    case Ipv4BlocksPerVpc => "vpc_"
    case RouteTablesPerVpc => "vpc_"
    case InterfaceVpcEndpointsPerVpc => "vpc_"
    case SubnetsPerVpc => "vpc_"
    case VpcsPerRegion => "region_"
  }

  lemma {:induction false} PrefixCancels(p: string, x: string, y: string)
    requires p + x == p + y
    ensures x == y
  {
    assert x == (p + x)[|p|..];
    assert y == (p + y)[|p|..];
  }

  /** Id is a fixed per-kind prefix followed by the scope, except for the
      transit-gateway kind, whose Id is the constant "all". */
  lemma IdIsPrefixedScope(c: Collector)
    ensures c.TransitGatewaysPerAcctCollector? ==> c.Id() == "all"
    ensures !c.TransitGatewaysPerAcctCollector? ==> c.Id() == IdPrefix(c.Kind()) + c.Scope()
  {
  }

  /** Two collectors of one kind with the same Id are the same collector:
      the Id is a faithful label for the scope within a kind. */
  lemma IdInjectiveWithinKind(a: Collector, b: Collector)
    requires a.Kind() == b.Kind()
    requires a.Id() == b.Id()
    ensures a == b
  {
    IdIsPrefixedScope(a);
    IdIsPrefixedScope(b);
    if !a.TransitGatewaysPerAcctCollector? {
      PrefixCancels(IdPrefix(a.Kind()), a.Scope(), b.Scope());
    }
  }

  /** The name is the kind's metric name, an underscore and the scope, except
      for the routes kind (prefix "routes_per_route_table_") and the
      transit-gateway kind (the bare metric name). */
  function NamePrefix(k: CollectorKind): string
  {
    if k == RoutesPerRouteTable then "routes_per_route_table_"
    else if k == TransitGatewaysPerAccount then MetricNameOf(k)
    else MetricNameOf(k) + "_"
  }

  /** Name is the kind's name prefix followed by the scope. */
  lemma NameIsPrefixedScope(c: Collector)
    ensures c.Name() == NamePrefix(c.Kind()) + c.Scope()
  {
  }

  /** Two collectors of one kind with the same Name are the same collector. */
  lemma NameInjectiveWithinKind(a: Collector, b: Collector)
    requires a.Kind() == b.Kind()
    requires a.Name() == b.Name()
    ensures a == b
  {
    NameIsPrefixedScope(a);
    NameIsPrefixedScope(b);
    PrefixCancels(NamePrefix(a.Kind()), a.Scope(), b.Scope());
  }

  /** The eight metric names are pairwise distinct, so the metric name
      determines the kind. */
  lemma MetricNameDeterminesKind(j: CollectorKind, k: CollectorKind)
    ensures MetricNameOf(j) == MetricNameOf(k) <==> j == k
  {
  }

  /** The Service Quotas keys are pairwise distinct across kinds. */
  lemma QuotaCodeDeterminesKind(a: Collector, b: Collector)
    requires a.ServiceQuotaCode().Some? && a.ServiceQuotaCode() == b.ServiceQuotaCode()
    ensures a.Kind() == b.Kind()
  {
  }

  /** The hosted-zone quota does not depend on the Service Quotas client. */
  lemma HostedZoneQuotaIgnoresServiceQuotas(hostedZoneId: string, clients: Clients, other: ServiceQuotaClient)
    ensures var c := Route53RecordsPerHostedZoneCollector(hostedZoneId);
            c.Quota(clients) == c.Quota(clients.(serviceQuota := other))
  {
  }

  /** Quota and Usage of the hosted-zone collector issue the same request:
      both are determined by the one answer to it. */
  lemma HostedZoneQuotaAndUsageShareRequest(hostedZoneId: string, a: Clients, b: Clients)
    requires a.route53.getHostedZoneLimit(R.HostedZoneLimitRequest(hostedZoneId))
          == b.route53.getHostedZoneLimit(R.HostedZoneLimitRequest(hostedZoneId))
    ensures var c := Route53RecordsPerHostedZoneCollector(hostedZoneId);
            c.Quota(a) == c.Quota(b) && c.Usage(a) == c.Usage(b)
  {
  }
}
