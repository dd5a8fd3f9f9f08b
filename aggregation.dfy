/** Aggregation: the collectors are grouped by kind and each group becomes a
    quota series and a usage series, with one point per collector Id. A
    reading that fails still contributes its value 0, and collectors of one
    group that share an Id add up. */
module Aggregation {
  import opened Aws
  import opened Collectors

  /** A gauge series: label value (a collector Id) to gauge value. */
  type Points = map<string, real>

  /** All series of a run, by series name. */
  type Gauges = map<string, Points>

  datatype Measure = QuotaMeasure | UsageMeasure

  /** Both readings of the collector can be taken. */
  predicate Measurable(c: Collector, clients: Clients)
  {
    c.QuotaDefined(clients) && c.UsageDefined(clients)
  }

  predicate AllMeasurable(cs: seq<Collector>, clients: Clients)
  {
    forall c :: c in cs ==> Measurable(c, clients)
  }

  function Measured(c: Collector, clients: Clients, m: Measure): Reading
    requires Measurable(c, clients)
  {
    match m
    case QuotaMeasure => c.Quota(clients)
    case UsageMeasure => c.Usage(clients)
  }

  function KindsOf(cs: seq<Collector>): set<CollectorKind>
  {
    set c | c in cs :: c.Kind()
  }

  function IdsOf(cs: seq<Collector>): set<string>
  {
    set c | c in cs :: c.Id()
  }

  // ---- grouping ----

  /** The collectors of kind k, in their order in cs. */
  function GroupOf(cs: seq<Collector>, k: CollectorKind): (g: seq<Collector>)
    ensures forall c :: c in g ==> c in cs && c.Kind() == k
  {
    if cs == [] then []
    else
      var g := GroupOf(cs[..|cs| - 1], k);
      if cs[|cs| - 1].Kind() == k then g + [cs[|cs| - 1]] else g
  }

  /** Grouping partitions the list: each collector occurs in the group of its
      own kind exactly as often as in the list, and in no other group. */
  lemma {:induction false} GroupsPartition(cs: seq<Collector>, c: Collector, k: CollectorKind)
    ensures multiset(GroupOf(cs, k))[c] == if c.Kind() == k then multiset(cs)[c] else 0
  {
    if cs != [] {
      GroupsPartition(cs[..|cs| - 1], c, k);
      assert cs == cs[..|cs| - 1] + [cs[|cs| - 1]];
    }
  }

  /** Grouping keeps the relative order: the group of a concatenation is the
      concatenation of the groups. */
  lemma {:induction false} GroupOfConcat(a: seq<Collector>, b: seq<Collector>, k: CollectorKind)
    ensures GroupOf(a + b, k) == GroupOf(a, k) + GroupOf(b, k)
  {
    if b == [] {
      assert a + b == a;
    } else {
      GroupOfConcat(a, b[..|b| - 1], k);
      assert (a + b)[..|a + b| - 1] == a + b[..|b| - 1];
    }
  }

  /** Every kind present in the list has a non-empty group. */
  lemma GroupOfPresentKind(cs: seq<Collector>, k: CollectorKind)
    requires k in KindsOf(cs)
    ensures |GroupOf(cs, k)| > 0
  {
    var c :| c in cs && c.Kind() == k;
    GroupsPartition(cs, c, k);
  }

  // ---- points ----

  /** The value at a label; a label without a point reads as 0. */
  function PointAt(p: Points, id: string): real
  {
    if id in p then p[id] else 0.0
  }

  /** The gauge's `Add`: a label seen for the first time starts from 0. */
  function Add(p: Points, id: string, v: real): Points
  {
    p[id := PointAt(p, id) + v]
  }

  /** The points of a group after adding each collector's reading in turn. */
  function Accumulated(g: seq<Collector>, clients: Clients, m: Measure): Points
    requires AllMeasurable(g, clients)
  {
    if g == [] then map[]
    else
      var c := g[|g| - 1];
      Add(Accumulated(g[..|g| - 1], clients, m), c.Id(), Measured(c, clients, m).value)
  }

  /** Reference definition: the sum of the readings of the collectors in g
      whose Id is id. */
  function Total(g: seq<Collector>, clients: Clients, m: Measure, id: string): real
    requires AllMeasurable(g, clients)
  {
    if g == [] then 0.0
    else (if g[0].Id() == id then Measured(g[0], clients, m).value else 0.0)
         + Total(g[1..], clients, m, id)
  }

  lemma {:induction false} TotalSnoc(g: seq<Collector>, c: Collector, clients: Clients, m: Measure, id: string)
    requires AllMeasurable(g + [c], clients)
    ensures AllMeasurable(g, clients)
    ensures Total(g + [c], clients, m, id)
         == Total(g, clients, m, id) + (if c.Id() == id then Measured(c, clients, m).value else 0.0)
  {
    assert forall x :: x in g ==> x in g + [c];
    if g != [] {
      assert (g + [c])[1..] == g[1..] + [c];
      TotalSnoc(g[1..], c, clients, m, id);
    }
  }

  /** The labels of the accumulated points are exactly the Ids of the group. */
  lemma {:induction false} AccumulatedLabels(g: seq<Collector>, clients: Clients, m: Measure)
    requires AllMeasurable(g, clients)
    ensures Accumulated(g, clients, m).Keys == IdsOf(g)
  {
    if g != [] {
      var init, c := g[..|g| - 1], g[|g| - 1];
      assert g == init + [c];
      assert forall x :: x in init ==> x in g;
      AccumulatedLabels(init, clients, m);
      assert IdsOf(g) == IdsOf(init) + {c.Id()};
    }
  }

  /** The value at every label is the sum of the readings of all collectors
      of the group with that Id: duplicates add up, none overwrites another. */
  lemma {:induction false} AccumulatedIsTotal(g: seq<Collector>, clients: Clients, m: Measure, id: string)
    requires AllMeasurable(g, clients)
    ensures PointAt(Accumulated(g, clients, m), id) == Total(g, clients, m, id)
  {
    if g != [] {
      var init, c := g[..|g| - 1], g[|g| - 1];
      assert g == init + [c];
      TotalSnoc(init, c, clients, m, id);
      AccumulatedIsTotal(init, clients, m, id);
    }
  }

  /** Two collectors with the same Id give one point holding the sum of both
      readings, not the later reading alone. */
  lemma DuplicateIdsAccumulate(a: Collector, b: Collector, clients: Clients, m: Measure)
    requires Measurable(a, clients) && Measurable(b, clients)
    requires a.Id() == b.Id()
    ensures Accumulated([a, b], clients, m)
         == map[a.Id() := Measured(a, clients, m).value + Measured(b, clients, m).value]
  {
    assert [a, b][..1] == [a];
    assert [a][..0] == [];
    var id, va, vb := a.Id(), Measured(a, clients, m).value, Measured(b, clients, m).value;
    assert Accumulated([a], clients, m) == map[id := va];
    assert Accumulated([a, b], clients, m) == map[id := va][id := va + vb];
  }

  /** A failed reading does not abort and is not left out: its Id gets a
      point, and the reading adds 0 to it. */
  lemma FailedReadingAddsZero(g: seq<Collector>, c: Collector, clients: Clients, m: Measure)
    requires AllMeasurable(g, clients) && Measurable(c, clients)
    requires Measured(c, clients, m).err.Some?
    ensures AllMeasurable(g + [c], clients)
    ensures var before, after := Accumulated(g, clients, m), Accumulated(g + [c], clients, m);
            && after.Keys == before.Keys + {c.Id()}
            && (c.Id() !in before ==> after[c.Id()] == 0.0)
            && (forall id :: id in before ==> after[id] == before[id])
  {
    assert (g + [c])[..|g|] == g;
  }

  // ---- series ----

  function QuotaSeriesName(k: CollectorKind): string { MetricNameOf(k) + "_quota" }
  function UsageSeriesName(k: CollectorKind): string { MetricNameOf(k) + "_usage" }

  lemma {:induction false} SuffixCancels(x: string, y: string, s: string)
    requires x + s == y + s
    ensures x == y
  {
    assert |x| == |y|;
    assert x == (x + s)[..|x|];
    assert y == (y + s)[..|y|];
  }

  /** The series names of all kinds are pairwise distinct: no quota series
      is a usage series, and each kind has its own pair. */
  lemma {:induction false} SeriesNamesDistinct(j: CollectorKind, k: CollectorKind)
    ensures QuotaSeriesName(j) != UsageSeriesName(k)
    ensures QuotaSeriesName(j) == QuotaSeriesName(k) <==> j == k
    ensures UsageSeriesName(j) == UsageSeriesName(k) <==> j == k
  {
    var q, u := QuotaSeriesName(j), UsageSeriesName(k);
    assert q[|q| - 1] == 'a';
    assert u[|u| - 1] == 'e';
    MetricNameDeterminesKind(j, k);
    if QuotaSeriesName(j) == QuotaSeriesName(k) {
      SuffixCancels(MetricNameOf(j), MetricNameOf(k), "_quota");
    }
    if UsageSeriesName(j) == UsageSeriesName(k) {
      SuffixCancels(MetricNameOf(j), MetricNameOf(k), "_usage");
    }
  }

  function SeriesNames(kinds: set<CollectorKind>): set<string>
  {
    (set k | k in kinds :: QuotaSeriesName(k)) + (set k | k in kinds :: UsageSeriesName(k))
  }

  /** The points of each kind's series, for the kinds present in `metrics`:
      the accumulated readings of the kind's group. */
  function SeriesTable(metrics: seq<Collector>, clients: Clients, m: Measure): (t: map<CollectorKind, Points>)
    requires AllMeasurable(metrics, clients)
    ensures t.Keys == KindsOf(metrics)
  {
    map k | k in KindsOf(metrics) :: Accumulated(GroupOf(metrics, k), clients, m)
  }

  /** `gauges` holds exactly the two series of each kind in `kinds`, with the
      points the two tables give that kind. */
  predicate HoldsSeries(gauges: Gauges, kinds: set<CollectorKind>,
                        quota: map<CollectorKind, Points>, usage: map<CollectorKind, Points>)
  {
    && gauges.Keys == SeriesNames(kinds)
    && forall k :: k in kinds ==>
         && k in quota && gauges[QuotaSeriesName(k)] == quota[k]
         && k in usage && gauges[UsageSeriesName(k)] == usage[k]
  }

  /** `gauges` holds exactly the two series of each kind in `kinds`: the quota
      series and the usage series of the kind's group of `metrics`. */
  predicate IsSeries(gauges: Gauges, kinds: set<CollectorKind>, metrics: seq<Collector>, clients: Clients)
    requires AllMeasurable(metrics, clients)
  {
    HoldsSeries(gauges, kinds, SeriesTable(metrics, clients, QuotaMeasure), SeriesTable(metrics, clients, UsageMeasure))
  }

  /** The series determine the gauges completely. */
  lemma HoldsSeriesUnique(a: Gauges, b: Gauges, kinds: set<CollectorKind>,
                          quota: map<CollectorKind, Points>, usage: map<CollectorKind, Points>)
    requires HoldsSeries(a, kinds, quota, usage) && HoldsSeries(b, kinds, quota, usage)
    ensures a == b
  {
    forall name | name in a ensures a[name] == b[name] {
      var k :| k in kinds && (name == QuotaSeriesName(k) || name == UsageSeriesName(k));
    }
  }

  /** Every collector's Id has a point in both series of its kind, holding
      the sum of the readings of the collectors of that kind with that Id;
      failed readings count as 0. */
  lemma SeriesPoints(gauges: Gauges, metrics: seq<Collector>, clients: Clients, c: Collector)
    requires AllMeasurable(metrics, clients)
    requires IsSeries(gauges, KindsOf(metrics), metrics, clients)
    requires c in metrics
    ensures var k := c.Kind();
            && c.Id() in gauges[QuotaSeriesName(k)]
            && gauges[QuotaSeriesName(k)][c.Id()] == Total(GroupOf(metrics, k), clients, QuotaMeasure, c.Id())
            && c.Id() in gauges[UsageSeriesName(k)]
            && gauges[UsageSeriesName(k)][c.Id()] == Total(GroupOf(metrics, k), clients, UsageMeasure, c.Id())
  {
    var k := c.Kind();
    var g := GroupOf(metrics, k);
    assert k in KindsOf(metrics);
    GroupsPartition(metrics, c, k);
    assert c in g;
    AccumulatedLabels(g, clients, QuotaMeasure);
    AccumulatedLabels(g, clients, UsageMeasure);
    AccumulatedIsTotal(g, clients, QuotaMeasure, c.Id());
    AccumulatedIsTotal(g, clients, UsageMeasure, c.Id());
  }

  lemma SeriesNamesMember(kinds: set<CollectorKind>, k: CollectorKind)
    requires k in kinds
    ensures QuotaSeriesName(k) in SeriesNames(kinds) && UsageSeriesName(k) in SeriesNames(kinds)
  {
  }

  lemma SeriesNamesInsert(done: set<CollectorKind>, k: CollectorKind)
    ensures SeriesNames(done + {k}) == SeriesNames(done) + {QuotaSeriesName(k), UsageSeriesName(k)}
  {
  }

  /** Writing the two series of kind k leaves the series of every other
      kind where they were. */
  lemma OtherSeriesUnchanged(gauges: Gauges, j: CollectorKind, k: CollectorKind, q: Points, u: Points)
    requires j != k
    ensures var after := gauges[UsageSeriesName(k) := u][QuotaSeriesName(k) := q];
            && (QuotaSeriesName(j) in after <==> QuotaSeriesName(j) in gauges)
            && (QuotaSeriesName(j) in gauges ==> after[QuotaSeriesName(j)] == gauges[QuotaSeriesName(j)])
            && (UsageSeriesName(j) in after <==> UsageSeriesName(j) in gauges)
            && (UsageSeriesName(j) in gauges ==> after[UsageSeriesName(j)] == gauges[UsageSeriesName(j)])
  {
    SeriesNamesDistinct(j, k);
    SeriesNamesDistinct(k, j);
  }

  /** Adding the two series of a kind not yet present keeps the gauges a
      set of series, now for one kind more. */
  lemma HoldsSeriesInsert(gauges: Gauges, done: set<CollectorKind>, k: CollectorKind,
                          quota: map<CollectorKind, Points>, usage: map<CollectorKind, Points>)
    requires HoldsSeries(gauges, done, quota, usage)
    requires k !in done && k in quota && k in usage
    ensures HoldsSeries(gauges[UsageSeriesName(k) := usage[k]][QuotaSeriesName(k) := quota[k]],
                        done + {k}, quota, usage)
  {
    var after := gauges[UsageSeriesName(k) := usage[k]][QuotaSeriesName(k) := quota[k]];
    SeriesNamesInsert(done, k);
    assert after.Keys == SeriesNames(done + {k});
    SeriesNamesDistinct(k, k);
    forall j | j in done + {k}
      ensures j in quota && QuotaSeriesName(j) in after && after[QuotaSeriesName(j)] == quota[j]
      ensures j in usage && UsageSeriesName(j) in after && after[UsageSeriesName(j)] == usage[j]
    {
      if j != k {
        SeriesNamesMember(done, j);
        OtherSeriesUnchanged(gauges, j, k, quota[k], usage[k]);
      }
    }
  }

  // ---- the aggregation pass ----

  /** A kind with a non-empty group is present in the list. */
  lemma GroupOfAbsentKind(cs: seq<Collector>, k: CollectorKind)
    ensures GroupOf(cs, k) != [] ==> k in KindsOf(cs)
  {
    if GroupOf(cs, k) != [] {
      var c := GroupOf(cs, k)[0];
      assert c in cs;
    }
  }

  method GroupByKind(metrics: seq<Collector>) returns (grouped: map<CollectorKind, seq<Collector>>)
    ensures grouped.Keys == KindsOf(metrics)
    ensures forall k :: k in grouped ==> grouped[k] == GroupOf(metrics, k)
  {
    grouped := map[];
    for i := 0 to |metrics|
      invariant grouped.Keys == KindsOf(metrics[..i])
      invariant forall k :: k in grouped ==> grouped[k] == GroupOf(metrics[..i], k)
    {
      var metric := metrics[i];
      var kind := metric.Kind();
      assert metrics[..i + 1][..i] == metrics[..i];
      assert metrics[..i + 1] == metrics[..i] + [metric];
      if kind !in grouped {
        GroupOfAbsentKind(metrics[..i], kind);
      }
      grouped := grouped[kind := (if kind in grouped then grouped[kind] else []) + [metric]];
    }
    assert metrics[..|metrics|] == metrics;
  }

  /** The quota and usage points of one group; each reading is added whether
      or not it failed. */
  method FillGauges(clients: Clients, group: seq<Collector>) returns (quotaPoints: Points, usagePoints: Points)
    requires AllMeasurable(group, clients)
    ensures quotaPoints == Accumulated(group, clients, QuotaMeasure)
    ensures usagePoints == Accumulated(group, clients, UsageMeasure)
  {
    quotaPoints, usagePoints := map[], map[];
    for i := 0 to |group|
      invariant quotaPoints == Accumulated(group[..i], clients, QuotaMeasure)
      invariant usagePoints == Accumulated(group[..i], clients, UsageMeasure)
    {
      var metric := group[i];
      assert metric in group;
      assert group[..i + 1][..i] == group[..i] && group[..i + 1][i] == metric;
      var quota := metric.Quota(clients);
      quotaPoints := Add(quotaPoints, metric.Id(), quota.value);
      var usage := metric.Usage(clients);
      usagePoints := Add(usagePoints, metric.Id(), usage.value);
      assert quota == Measured(metric, clients, QuotaMeasure) && usage == Measured(metric, clients, UsageMeasure);
    }
    assert group[..|group|] == group;
  }

  lemma SeriesNamesEmpty()
    ensures SeriesNames({}) == {}
  {
  }

  /** The kinds of a visiting order, as a set. */
  ghost function Elems(order: seq<CollectorKind>): (s: set<CollectorKind>)
    ensures forall k :: k in s <==> k in order
  {
    if order == [] then {} else Elems(order[..|order| - 1]) + {order[|order| - 1]}
  }

  ghost predicate Distinct(order: seq<CollectorKind>)
  {
    forall i, j :: 0 <= i < j < |order| ==> order[i] != order[j]
  }

  lemma DistinctSnoc(order: seq<CollectorKind>, k: CollectorKind)
    requires Distinct(order) && k !in order
    ensures Distinct(order + [k])
  {
  }

  /** The gauges after the kinds of `order` have been visited in that order,
      each adding its usage series and then its quota series. */
  ghost function Built(order: seq<CollectorKind>, quota: map<CollectorKind, Points>,
                       usage: map<CollectorKind, Points>): Gauges
    requires forall k :: k in order ==> k in quota && k in usage
  {
    if order == [] then map[]
    else
      var k := order[|order| - 1];
      Built(order[..|order| - 1], quota, usage)[UsageSeriesName(k) := usage[k]][QuotaSeriesName(k) := quota[k]]
  }

  lemma BuiltSnoc(order: seq<CollectorKind>, k: CollectorKind,
                  quota: map<CollectorKind, Points>, usage: map<CollectorKind, Points>)
    requires forall j :: j in order ==> j in quota && j in usage
    requires k in quota && k in usage
    ensures forall j :: j in order + [k] ==> j in quota && j in usage
    ensures Built(order + [k], quota, usage)
         == Built(order, quota, usage)[UsageSeriesName(k) := usage[k]][QuotaSeriesName(k) := quota[k]]
  {
    assert (order + [k])[..|order|] == order;
  }

  lemma ElemsCover(order: seq<CollectorKind>, kinds: set<CollectorKind>)
    requires forall k :: k in order ==> k in kinds
    requires forall k :: k in kinds ==> k in order
    ensures Elems(order) == kinds
  {
  }

  /** Visiting distinct kinds in any order builds exactly their series. */
  lemma {:induction false} BuiltHoldsSeries(order: seq<CollectorKind>,
                                            quota: map<CollectorKind, Points>, usage: map<CollectorKind, Points>)
    requires forall k :: k in order ==> k in quota && k in usage
    requires Distinct(order)
    ensures HoldsSeries(Built(order, quota, usage), Elems(order), quota, usage)
  {
    if order == [] {
      SeriesNamesEmpty();
    } else {
      var init, k := order[..|order| - 1], order[|order| - 1];
      assert forall x :: x in init ==> x in order;
      assert k !in init;
      BuiltHoldsSeries(init, quota, usage);
      HoldsSeriesInsert(Built(init, quota, usage), Elems(init), k, quota, usage);
    }
  }

  /** What the gauge loop needs of one group and the points expected for it:
      the group is non-empty, of kind k, measurable, and the expected points
      are its accumulated readings. */
  predicate GroupReady(group: seq<Collector>, k: CollectorKind, q: Points, u: Points, clients: Clients)
  {
    && |group| > 0 && AllMeasurable(group, clients) && group[0].Kind() == k
    && q == Accumulated(group, clients, QuotaMeasure) && u == Accumulated(group, clients, UsageMeasure)
  }

  /** A grouping together with the expected points of every group. */
  predicate GroupTables(grouped: map<CollectorKind, seq<Collector>>, quota: map<CollectorKind, Points>,
                        usage: map<CollectorKind, Points>, clients: Clients)
  {
    && quota.Keys == grouped.Keys && usage.Keys == grouped.Keys
    && forall k {:trigger GroupReady(grouped[k], k, quota[k], usage[k], clients)} :: k in grouped ==>
         GroupReady(grouped[k], k, quota[k], usage[k], clients)
  }

  /** The grouping `GroupByKind` returns goes with the series tables of the
      collector list. */
  lemma GroupingHasSeriesTables(metrics: seq<Collector>, clients: Clients, grouped: map<CollectorKind, seq<Collector>>)
    requires AllMeasurable(metrics, clients)
    requires grouped.Keys == KindsOf(metrics)
    requires forall k :: k in grouped ==> grouped[k] == GroupOf(metrics, k)
    ensures GroupTables(grouped, SeriesTable(metrics, clients, QuotaMeasure), SeriesTable(metrics, clients, UsageMeasure), clients)
  {
    var quota, usage := SeriesTable(metrics, clients, QuotaMeasure), SeriesTable(metrics, clients, UsageMeasure);
    forall k | k in grouped
      ensures GroupReady(grouped[k], k, quota[k], usage[k], clients)
    {
      GroupReadyOf(metrics, clients, k);
    }
  }

  /** The group of a kind present in the list is ready, with the series
      tables' points. */
  lemma GroupReadyOf(metrics: seq<Collector>, clients: Clients, k: CollectorKind)
    requires AllMeasurable(metrics, clients)
    requires k in KindsOf(metrics)
    ensures GroupReady(GroupOf(metrics, k), k, SeriesTable(metrics, clients, QuotaMeasure)[k],
                       SeriesTable(metrics, clients, UsageMeasure)[k], clients)
  {
    var g := GroupOf(metrics, k);
    GroupOfPresentKind(metrics, k);
    assert g[0] in g;
    assert AllMeasurable(g, clients);
    assert SeriesTable(metrics, clients, QuotaMeasure)[k] == Accumulated(g, clients, QuotaMeasure);
    assert SeriesTable(metrics, clients, UsageMeasure)[k] == Accumulated(g, clients, UsageMeasure);
  }

  /** Adds the two series of group k, both named after the group's first
      collector: its usage series, then its quota series. */
  method AddGroupSeries(clients: Clients, gauges: Gauges, grouped: map<CollectorKind, seq<Collector>>, k: CollectorKind,
                        ghost quota: map<CollectorKind, Points>, ghost usage: map<CollectorKind, Points>)
    returns (after: Gauges)
    requires GroupTables(grouped, quota, usage, clients) && k in grouped
    ensures after == gauges[UsageSeriesName(k) := usage[k]][QuotaSeriesName(k) := quota[k]]
  {
    var group := grouped[k];
    assert GroupReady(group, k, quota[k], usage[k], clients);
    var quotaKey := group[0].MetricName() + "_quota";
    var usageKey := group[0].MetricName() + "_usage";
    var quotaPoints, usagePoints := FillGauges(clients, group);
    after := gauges[usageKey := usagePoints];
    after := after[quotaKey := quotaPoints];
  }

  /** Builds the two series of every group; the groups are visited in no
      particular order, and no failed reading stops the pass. */
  method FillSeries(clients: Clients, grouped: map<CollectorKind, seq<Collector>>,
                    ghost quota: map<CollectorKind, Points>, ghost usage: map<CollectorKind, Points>)
    returns (gauges: Gauges)
    requires GroupTables(grouped, quota, usage, clients)
    ensures HoldsSeries(gauges, grouped.Keys, quota, usage)
  {
    gauges := map[];
    var pending := grouped.Keys;
    ghost var order: seq<CollectorKind> := [];
    while pending != {}
      invariant pending <= grouped.Keys
      invariant forall k :: k in order ==> k in grouped && k !in pending
      invariant forall k :: k in grouped && k !in pending ==> k in order
      invariant Distinct(order)
      invariant gauges == Built(order, quota, usage)
      decreases |pending|
    {
      var k :| k in pending;
      DistinctSnoc(order, k);
      BuiltSnoc(order, k, quota, usage);
      gauges := AddGroupSeries(clients, gauges, grouped, k, quota, usage);
      order, pending := order + [k], pending - {k};
    }
    BuiltHoldsSeries(order, quota, usage);
    ElemsCover(order, grouped.Keys);
  }

  /** Groups the collectors by kind, then builds the two series of each kind
      present. */
  method SendMetrics(clients: Clients, metrics: seq<Collector>) returns (gauges: Gauges)
    requires AllMeasurable(metrics, clients)
    ensures IsSeries(gauges, KindsOf(metrics), metrics, clients)
  {
    var grouped := GroupByKind(metrics);
    GroupingHasSeriesTables(metrics, clients, grouped);
    gauges := FillSeries(clients, grouped, SeriesTable(metrics, clients, QuotaMeasure), SeriesTable(metrics, clients, UsageMeasure));
  }
}
