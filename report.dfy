/** One run of the monitor: discover the collectors, print a report line per
    collector (the first failed reading aborts the run), then, when a push
    gateway address is given, aggregate the readings into gauge series and
    push them under the job name. */
module Report {
  import opened Aws
  import opened Collectors
  import opened Aggregation
  import Discovery

  /** One entry of the plain report: the collector's name and both readings. */
  datatype ReportLine = ReportLine(name: string, quota: real, usage: real)

  /** The lines printed by the report loop and the panic that stopped it. */
  datatype ReportResult = ReportResult(lines: seq<ReportLine>, panic: Option<string>)

  /** Both readings of the collector can be taken and neither failed. */
  predicate Succeeds(c: Collector, clients: Clients)
  {
    && c.QuotaDefined(clients) && c.Quota(clients).err.None?
    && c.UsageDefined(clients) && c.Usage(clients).err.None?
  }

  function LineOf(c: Collector, clients: Clients): ReportLine
    requires Succeeds(c, clients)
  {
    ReportLine(c.Name(), c.Quota(clients).value, c.Usage(clients).value)
  }

  /** The panic message for a collector whose quota or usage reading failed:
      the quota is read first, so a failed quota hides the usage. */
  function FailureMessage(c: Collector, clients: Clients): string
    requires c.QuotaDefined(clients)
    requires c.Quota(clients).err.None? ==> c.UsageDefined(clients)
    requires !Succeeds(c, clients)
  {
    var q := c.Quota(clients);
    if q.err.Some? then "Could not get quota: " + q.err.value
    else "Could not get usage: " + c.Usage(clients).err.value
  }

  /** The readings the report loop takes are defined: every quota it reads,
      and every usage it reads after a successful quota, up to the first
      failure. */
  predicate ReportSafe(cs: seq<Collector>, clients: Clients)
  {
    cs != [] ==>
      && cs[0].QuotaDefined(clients)
      && (cs[0].Quota(clients).err.None? ==>
            && cs[0].UsageDefined(clients)
            && (cs[0].Usage(clients).err.None? ==> ReportSafe(cs[1..], clients)))
  }

  /** The report of a collector list: one line per collector, in order, as
      long as both readings succeed; the first failed reading ends the
      report with a panic naming the failed reading. */
  function Reported(cs: seq<Collector>, clients: Clients): (r: ReportResult)
    requires ReportSafe(cs, clients)
    ensures |r.lines| <= |cs|
    ensures forall i :: 0 <= i < |r.lines| ==> Succeeds(cs[i], clients) && r.lines[i] == LineOf(cs[i], clients)
    ensures r.panic.None? <==> forall i :: 0 <= i < |cs| ==> Succeeds(cs[i], clients)
    ensures r.panic.None? ==> |r.lines| == |cs|
    ensures r.panic.Some? ==>
              && |r.lines| < |cs|
              && cs[|r.lines|].QuotaDefined(clients)
              && (cs[|r.lines|].Quota(clients).err.None? ==> cs[|r.lines|].UsageDefined(clients))
              && !Succeeds(cs[|r.lines|], clients)
              && r.panic == Some(FailureMessage(cs[|r.lines|], clients))
  {
    if cs == [] then ReportResult([], None)
    else
      var c := cs[0];
      var q := c.Quota(clients);
      if q.err.Some? then ReportResult([], Some("Could not get quota: " + q.err.value))
      else
        var u := c.Usage(clients);
        if u.err.Some? then ReportResult([], Some("Could not get usage: " + u.err.value))
        else
          var rest := Reported(cs[1..], clients);
          assert forall i :: 1 <= i < |cs| ==> cs[i] == cs[1..][i - 1];
          ReportResult([ReportLine(c.Name(), q.value, u.value)] + rest.lines, rest.panic)
  }

  /** A list has one first failure: two positions that are each preceded
      only by successes, and are each the end of the list or a failure, are
      the same position. */
  lemma FirstFailureUnique(cs: seq<Collector>, clients: Clients, a: nat, b: nat)
    requires a <= |cs| && b <= |cs|
    requires forall j :: 0 <= j < a ==> Succeeds(cs[j], clients)
    requires forall j :: 0 <= j < b ==> Succeeds(cs[j], clients)
    requires a < |cs| ==> !Succeeds(cs[a], clients)
    requires b < |cs| ==> !Succeeds(cs[b], clients)
    ensures a == b
  {
  }

  /** The report is determined by where the first failure is: a list whose
      first i collectors succeed, and that ends at i or fails at i, has
      exactly their lines, and panics with the failure at i if there is one. */
  lemma {:induction false} ReportedUpTo(cs: seq<Collector>, clients: Clients, lines: seq<ReportLine>)
    requires ReportSafe(cs, clients)
    requires |lines| <= |cs|
    requires forall j :: 0 <= j < |lines| ==> Succeeds(cs[j], clients) && lines[j] == LineOf(cs[j], clients)
    requires |lines| < |cs| ==> !Succeeds(cs[|lines|], clients)
    ensures Reported(cs, clients).lines == lines
    ensures Reported(cs, clients).panic.None? <==> |lines| == |cs|
  {
    FirstFailureUnique(cs, clients, |lines|, |Reported(cs, clients).lines|);
  }

  /** A successful first collector leaves the rest of the list safe. */
  lemma ReportSafeRest(cs: seq<Collector>, clients: Clients)
    requires cs != [] && ReportSafe(cs, clients) && Succeeds(cs[0], clients)
    ensures ReportSafe(cs[1..], clients)
  {
  }

  /** The report loop of `main`: reads the quota, then the usage, of each
      collector in turn and stops at the first error. */
  method ReportLoop(clients: Clients, cs: seq<Collector>) returns (lines: seq<ReportLine>, panic: Option<string>)
    requires ReportSafe(cs, clients)
    ensures ReportResult(lines, panic) == Reported(cs, clients)
  {
    lines := [];
    for i := 0 to |cs|
      invariant ReportSafe(cs[i..], clients)
      invariant |lines| == i
      invariant forall j :: 0 <= j < i ==> Succeeds(cs[j], clients) && lines[j] == LineOf(cs[j], clients)
    {
      var col := cs[i];
      assert cs[i..][0] == col && cs[i..][1..] == cs[i + 1..];
      var quota := col.Quota(clients);
      if quota.err.Some? {
        panic := Some("Could not get quota: " + quota.err.value);
        ReportedUpTo(cs, clients, lines);
        return;
      }
      var usage := col.Usage(clients);
      if usage.err.Some? {
        panic := Some("Could not get usage: " + usage.err.value);
        ReportedUpTo(cs, clients, lines);
        return;
      }
      ReportSafeRest(cs[i..], clients);
      lines := lines + [ReportLine(col.Name(), quota.value, usage.value)];
    }
    panic := None;
    ReportedUpTo(cs, clients, lines);
  }

  /** The command-line flags. */
  datatype Flags = Flags(hostedZoneId: string, region: string, vpcId: string, pushGatewayAddress: string)

  /** The job name the gauges are pushed under. */
  const PushJob := "private_link"

  /** A push to the gateway: its address, the job name and every gauge. */
  datatype Push = Push(address: string, job: string, gauges: Gauges)

  /** What a run leaves behind: the report lines, the panic that ended it
      if any, and the push it made if any. */
  datatype RunResult = RunResult(lines: seq<ReportLine>, panic: Option<string>, pushed: Option<Push>)

  /** The collectors of the run. */
  function Collected(flags: Flags, atSetup: Clients): seq<Collector>
  {
    Discovery.Discovered(atSetup.ec2.describeRouteTables(Discovery.RouteTablesQuery(flags.vpcId)),
                         flags.hostedZoneId, flags.region, flags.vpcId)
  }

  /** `main`: a configuration error panics before anything else; otherwise
      the report is the report of the discovered collectors, and the gauges
      are pushed exactly when the report finished and an address was given.
      The three client snapshots stand for the answers AWS gives during
      discovery, during the report and during the push. */
  method Run(flags: Flags, configError: Option<string>, atSetup: Clients, atReport: Clients, atPush: Clients)
    returns (result: RunResult)
    requires configError.None? ==> ReportSafe(Collected(flags, atSetup), atReport)
    requires configError.None? && flags.pushGatewayAddress != ""
             && Reported(Collected(flags, atSetup), atReport).panic.None?
             ==> AllMeasurable(Collected(flags, atSetup), atPush)
    ensures configError.Some? ==> result == RunResult([], Some("config error, " + configError.value), None)
    ensures configError.None? ==>
              && result.lines == Reported(Collected(flags, atSetup), atReport).lines
              && result.panic == Reported(Collected(flags, atSetup), atReport).panic
    ensures result.pushed.Some? <==> result.panic.None? && flags.pushGatewayAddress != ""
    ensures result.pushed.Some? ==>
              && configError.None?
              && result.pushed.value.address == flags.pushGatewayAddress
              && result.pushed.value.job == PushJob
              && IsSeries(result.pushed.value.gauges, KindsOf(Collected(flags, atSetup)),
                          Collected(flags, atSetup), atPush)
  {
    if configError.Some? {
      return RunResult([], Some("config error, " + configError.value), None);
    }
    var allCollectors := Discovery.SetupCollection(atSetup.ec2, flags.hostedZoneId, flags.region, flags.vpcId);
    var lines, panic := ReportLoop(atReport, allCollectors);
    if panic.Some? {
      return RunResult(lines, panic, None);
    }
    var pushed := None;
    if flags.pushGatewayAddress != "" {
      var gauges := SendMetrics(atPush, allCollectors);
      pushed := Some(Push(flags.pushGatewayAddress, PushJob, gauges));
    }
    result := RunResult(lines, None, pushed);
  }
}
