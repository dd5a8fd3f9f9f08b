# privatelink-infrastructure-monitor, modelled in Dafny

The monitor compares AWS quota limits with current usage for the resources a
PrivateLink setup depends on. Each of eight collector kinds yields one quota
reading and one usage reading for its scope: routes per route table, transit
gateways per account, records per hosted zone, and for a VPC its IPv4
blocks, route tables, interface endpoints and subnets, plus VPCs per region.

One run does three things:

- discovers the collectors: one per route table of the VPC, then seven
  fixed ones;
- prints a report line per collector, and panics at the first failed
  reading;
- when a push-gateway address is given, groups the collectors by kind and
  pushes a `<metric>_quota` and a `<metric>_usage` gauge series per kind,
  with one point per collector Id.

The model:

- `aws.dfy` (module `Aws`): the AWS clients as records of oracle functions
  from request to `Ok(response)` or `Err(text)`. A contract can therefore
  name the exact request a collector sends. Go's `(float64, error)` result is
  `Reading(value, err)`.
- `service_quotas.dfy` (`ServiceQuotas`): the shared Service Quotas lookup
  `GetQuotaValue`.
- `vpc_collectors.dfy` (`VpcCollectors`), `route53_collectors.dfy`
  (`Route53Collectors`) and `transit_gateways_collector.dfy`
  (`TransitGatewayCollectors`): each kind's quota code, usage query and
  label strings.
- `collector.dfy` (`Collectors`): the collector contract as one datatype
  with a variant per kind, carrying only its scope. It has the five
  operations `Quota`, `Usage`, `Name`, `Id` and `MetricName`, with lemmas
  on how labels relate to scopes.
- `discovery.dfy` (`Discovery`): `setupCollection`, as a method with its
  append loop, proved against the function `Discovered`.
- `aggregation.dfy` (`Aggregation`): `sendMetrics`, as methods with the
  grouping loop and the series-filling loops. They are proved against the
  specification functions `GroupOf`, `Accumulated` and `SeriesTable`, and
  lemmas tie these to an independent sum (`Total`).
- `report.dfy` (`Report`): the report loop of `main`, proved against the
  function `Reported`, and the whole run `Run`.

Where the code dereferences an answer without a check, the model requires
that answer to be well-shaped. This covers a Service Quotas answer without
a value, and a route-table lookup with no tables. The requirement holds only
for the readings the code actually takes (`QuotaDefined`, `UsageDefined`,
`ReportSafe`, `AllMeasurable`).

Three behaviours of the code are easy to misread; the model follows the
code:

- Collectors of one kind with the same Id add up. Each point is built with
  the gauge's `Add`, so the later reading does not overwrite the earlier
  one (`AccumulatedIsTotal`, `DuplicateIdsAccumulate`).
- The routes-per-route-table usage reads the first returned table without
  a bounds check. It does not turn an empty answer into an error, so the
  model makes a non-empty answer a precondition
  (`RoutesPerRouteTableUsageDefined`).
- The routes-per-route-table metric name is
  `routes_per_route_table_collector`, with the `_collector` suffix.

## Model

| member | source | states |
|---|---|---|
| ServiceQuotas.GetQuotaValue | pkg/collectors/collector.go:19-30 | asks Service Quotas about exactly the given service and quota codes; a failed call yields 0 with that call's error; a successful one yields the answer's quota value and no error |
| ServiceQuotas.GetQuotaValueAsksOnlyForItsCodes | pkg/collectors/collector.go:20-23 | two clients that give the same answer to the one (service, quota) request give the same reading |
| Collectors.Collector.Quota | pkg/collectors/collector.go:10-16 | every kind with a Service Quotas code delegates to GetQuotaValue under its own code; the hosted-zone kind reads its zone limit; a failed reading always has value 0 |
| Collectors.Collector.Usage | pkg/collectors/collector.go:10-16 | each kind delegates to its own usage query (the per-kind usage functions below); a failed reading has value 0; every kind except hosted-zone counts listed resources, so its value is never negative |
| Collectors.IdIsPrefixedScope | pkg/collectors/collector.go:10-16 | the Id is "all" for the transit-gateway kind, and otherwise the kind's fixed prefix ("region_", "vpc_", "route_table_", "hosted_zone_") followed by the scope |
| Collectors.IdInjectiveWithinKind | pkg/collectors/vpcCollectors.go:145-147 | two collectors of one kind with equal Ids are the same collector |
| Collectors.NameIsPrefixedScope | pkg/collectors/collector.go:10-16 | the Name is a fixed per-kind prefix followed by the scope; for the transit-gateway kind it is the bare metric name |
| Collectors.NameInjectiveWithinKind | pkg/collectors/vpcCollectors.go:153-155 | two collectors of one kind with equal Names are the same collector |
| Collectors.MetricNameDeterminesKind | pkg/collectors/collector.go:10-16 | the eight metric names are pairwise distinct: equal metric names if and only if equal kinds |
| Collectors.QuotaCodeDeterminesKind | pkg/collectors/collector.go:10-16 | the seven Service Quotas codes are pairwise distinct across kinds |
| Collectors.HostedZoneQuotaIgnoresServiceQuotas | pkg/collectors/route53Collectors.go:18-27 | the hosted-zone quota does not depend on the Service Quotas client |
| Collectors.HostedZoneQuotaAndUsageShareRequest | pkg/collectors/route53Collectors.go:19-33 | quota and usage of a hosted zone are both determined by the one answer to the same zone-limit request |
| Route53Collectors.RecordsPerHostedZoneQuota | pkg/collectors/route53Collectors.go:18-27 | for the zone's MaxRrsetsByZone request: error iff the call failed, with 0 and that error; otherwise the limit's value |
| Route53Collectors.RecordsPerHostedZoneUsage | pkg/collectors/route53Collectors.go:29-38 | same request: error iff the call failed, with 0 and that error; otherwise the record-set count |
| TransitGatewayCollectors.TransitGatewaysPerAccountUsage | pkg/collectors/transitGatewaysPerAcctCollector.go:25-35 | one first-page request (dry run off, at most 100, no token): error iff the call failed, with 0 and that error; otherwise the number of gateways on that page |
| VpcCollectors.VpcsPerRegionUsage | pkg/collectors/vpcCollectors.go:33-39 | error iff the unfiltered VPC listing failed, with 0 and that error; otherwise the number of VPCs listed |
| VpcCollectors.SubnetsPerVpcUsage | pkg/collectors/vpcCollectors.go:63-74 | for the vpc-id-filtered listing: error iff it failed, with 0 and that error; otherwise the number of subnets |
| VpcCollectors.InterfaceVpcEndpointsPerVpcUsage | pkg/collectors/vpcCollectors.go:98-110 | for the vpc-id-filtered listing: error iff it failed, with 0 and that error; otherwise the number of endpoints |
| VpcCollectors.RoutesPerRouteTableUsage | pkg/collectors/vpcCollectors.go:134-143 | for the lookup by route-table id: error iff it failed, with 0 and that error; otherwise the route count of the first table returned |
| VpcCollectors.RouteTablesPerVpcUsage | pkg/collectors/vpcCollectors.go:167-180 | for the vpc-id-filtered listing: error iff it failed, with 0 and that error; otherwise the number of route tables |
| VpcCollectors.Ipv4BlocksPerVpcUsage | pkg/collectors/vpcCollectors.go:204-218 | error iff the lookup failed or did not return exactly one VPC (0 with the call's error, or 0 with the unexpected-count error); otherwise that VPC's number of CIDR associations |
| Discovery.RouteCollectors | main.go:40-47 | one routes collector per route table, in listing order, scoped to that table's id |
| Discovery.Discovered | main.go:29-84 | length is the number of tables found plus 7; routes collectors first, exactly one per table; then the seven fixed collectors in their order; a failed listing gives only the fixed collectors |
| Discovery.SetupCollection | main.go:20-85 | the appended list equals Discovered for the answer to the VPC's route-table listing |
| Discovery.RouteCollectorCountMatchesRouteTableUsage | main.go:31-48 | on a successful listing, the number of routes collectors equals the route-tables-per-VPC usage for the same VPC |
| Aggregation.GroupOf | main.go:89-93 | every member of the group of kind k is in the list and has kind k |
| Aggregation.GroupsPartition | main.go:89-93 | each collector occurs in the group of its own kind exactly as often as in the list, and in no other group |
| Aggregation.GroupOfConcat | main.go:89-93 | grouping keeps relative order: the group of a concatenation is the concatenation of the groups |
| Aggregation.GroupOfPresentKind | main.go:92 | every kind present in the list has a non-empty group |
| Aggregation.GroupOfAbsentKind | main.go:92 | a kind with a non-empty group is present in the list |
| Aggregation.GroupByKind | main.go:89-93 | the grouping map has exactly the kinds of the list as keys, and maps each kind to its group |
| Aggregation.AccumulatedLabels | main.go:108-113 | the labels of a series are exactly the Ids of the group's collectors |
| Aggregation.AccumulatedIsTotal | main.go:108-113 | the value at each label is the sum of the readings of all collectors in the group with that Id |
| Aggregation.DuplicateIdsAccumulate | main.go:108 | two collectors with the same Id give one point holding the sum of their readings |
| Aggregation.FailedReadingAddsZero | main.go:104-108 | a failed reading does not stop the pass: its Id gets a point, the reading adds 0 to it, and every other point is unchanged |
| Aggregation.SeriesNamesDistinct | main.go:95-96 | no quota series name is a usage series name, and each kind has its own pair of names |
| Aggregation.SeriesTable | main.go:94-117 | the table has an entry for exactly the kinds present in the list |
| Aggregation.HoldsSeriesUnique | main.go:114-115 | the per-kind series determine the gauge map completely |
| Aggregation.SeriesPoints | main.go:103-116 | every collector's Id has a point in both series of its kind, holding the sum over the collectors of that kind with that Id |
| Aggregation.OtherSeriesUnchanged | main.go:114-115 | writing the two series of one kind leaves every other kind's series as it was |
| Aggregation.HoldsSeriesInsert | main.go:114-115 | adding the two series of a new kind gives the series of one kind more |
| Aggregation.BuiltHoldsSeries | main.go:94-117 | visiting distinct kinds in any order builds exactly their series |
| Aggregation.GroupingHasSeriesTables | main.go:94-96 | every group of the grouping is non-empty, of its own kind, and has the series table's points |
| Aggregation.FillGauges | main.go:103-116 | the quota and usage points of a group are its readings accumulated in order, failed ones included |
| Aggregation.AddGroupSeries | main.go:95-116 | the series named after the group's first collector are set to the group's usage points, then its quota points; nothing else changes |
| Aggregation.FillSeries | main.go:94-117 | after every group has been visited, the gauges hold exactly the two series of every kind, whatever the visiting order |
| Aggregation.SendMetrics | main.go:87-117 | the gauges hold exactly the `<metric>_quota` and `<metric>_usage` series of every kind present, with the accumulated points of that kind's group |
| Report.Reported | main.go:137-148 | one line per collector in order while both readings succeed; no panic iff every collector succeeds; otherwise the first failing collector's quota error, or else its usage error |
| Report.FirstFailureUnique | main.go:137-148 | a list has exactly one first-failure position |
| Report.ReportedUpTo | main.go:137-148 | a prefix of successful lines that ends at the list's end or at a failure is the report |
| Report.ReportSafeRest | main.go:137-148 | after a successful collector, the readings of the rest of the list are still defined |
| Report.ReportLoop | main.go:137-148 | the printed lines and the panic are exactly Reported's |
| Report.Run | main.go:128-152 | a config error panics before anything else; otherwise the report is the report of the discovered collectors; the gauges are pushed to the given address under job "private_link" iff the report finished and the address is non-empty, and they are then the series of the discovered collectors |

## Left out

- AWS SDK clients and calls are oracle functions inside client records. Credentials, retries, `context.TODO` and the network are not modelled.
- Report.Run: configuration loading is reduced to a `configError` parameter. Only its panic is modelled; the region assignment is not.
- Report.Run: flag parsing is reduced to a `Flags` value.
- Report.Run: AWS may answer differently during discovery, the report and the push. These are three client snapshots (`atSetup`, `atReport`, `atPush`). Within one snapshot, repeated calls give the same answer.
- Report.Run: a failed push is only printed by the code, so it is not modelled. A push is recorded as its address, job and gauge map.
- Prometheus `GaugeVec` values are `map<string, real>` series keyed by Id. The order in which gauges are registered with the pusher is not modelled.
- `fmt` output is not modelled. The report is a sequence of `ReportLine`s; the `%.2f` formatting, the "could not retrieve route tables" line and the per-metric error lines of the aggregation are left out.
- float64 is modelled as `real`: no rounding, no NaN, no overflow. Usages are list lengths; quota values are taken as given.
- `reflect.TypeOf` grouping is replaced by the collector's kind tag. Each pointer type corresponds to one variant.
- TransitGatewayCollectors.TransitGatewaysPerAccountUsage: only the first page is read, as in the code. A `nextToken` in the answer is ignored.
- Other pointer fields of AWS answers, such as a route table's id read during discovery, are plain values in the model, so a nil there is not modelled. Only the Service Quotas value and the first route table become preconditions.
- A Go panic is a `panic` value in the result, not a crash. The report ends there, and nothing is pushed.
