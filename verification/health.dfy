/**
 * The gateway's aggregated health check (`gateway_health` in
 * backend_python/api_gateway/app/routes/gateway.py): probe each configured
 * service once, in order, record one status per service under its
 * lower-cased name, and reduce them to one overall status. The HTTP probe
 * is the parameter `probe`, from URL to outcome.
 */
module Health {
  import opened Wrappers
  import opened Text
  import OrderedDict

  /** What one `GET {url}/health` ends in: a status code and the elapsed seconds, or any exception. */
  datatype ProbeOutcome =
    | Responded(statusCode: int, elapsedSeconds: real)
    | Raised

  /** The per-service status strings "healthy", "unhealthy" and "unreachable". */
  datatype ServiceStatus = Healthy | Unhealthy | Unreachable

  /** One entry of `service_status`: its status and `response_time` (None when unreachable). */
  datatype ServiceHealth = ServiceHealth(status: ServiceStatus, responseTime: Option<real>)

  /** The overall status strings "healthy" and "degraded". */
  datatype OverallStatus = AllHealthy | Degraded

  /** The reply of the health route. */
  datatype HealthReport = HealthReport(
    status: OverallStatus,
    service: string,
    timestamp: string,
    services: OrderedDict.Dict<ServiceHealth>)

  /** A configured service: its name and base URL, in `SERVICES` order. */
  type ServiceTable = seq<(string, string)>

  /** The `SERVICES` table, given the three base URLs read from the environment. */
  function ConfiguredServices(sensorUrl: string, aiUrl: string, notificationUrl: string): ServiceTable {
    [("SENSOR_SERVICE", sensorUrl), ("AI_SERVICE", aiUrl), ("NOTIFICATION_SERVICE", notificationUrl)]
  }

  /** The probe URL: `f"{service_url}/health"`, without stripping a trailing slash. */
  function ProbeUrl(serviceUrl: string): (r: string)
    ensures |r| == |serviceUrl| + 7 && r[..|serviceUrl|] == serviceUrl && r[|serviceUrl|..] == "/health"
  {
    serviceUrl + "/health"
  }

  /** The status a probe outcome earns. */
  function Classify(outcome: ProbeOutcome): (h: ServiceHealth)
    ensures h.status == Healthy <==> outcome.Responded? && outcome.statusCode == 200
    ensures h.status == Unhealthy <==> outcome.Responded? && outcome.statusCode != 200
    ensures h.status == Unreachable <==> outcome.Raised?
    ensures h.responseTime.None? <==> outcome.Raised?
    ensures outcome.Responded? ==> h.responseTime == Some(outcome.elapsedSeconds)
  {
    match outcome
    case Responded(code, elapsed) => ServiceHealth(if code == 200 then Healthy else Unhealthy, Some(elapsed))
    case Raised => ServiceHealth(Unreachable, None)
  }

  /** The dict entry one service contributes. */
  function Entry(service: (string, string), probe: string -> ProbeOutcome): (string, ServiceHealth) {
    (Lower(service.0), Classify(probe(ProbeUrl(service.1))))
  }

  /** The entries in probing order. */
  function Entries(services: ServiceTable, probe: string -> ProbeOutcome): (r: seq<(string, ServiceHealth)>)
    ensures |r| == |services|
    ensures forall i :: 0 <= i < |services| ==> r[i] == Entry(services[i], probe)
  {
    seq(|services|, i requires 0 <= i < |services| => Entry(services[i], probe))
  }

  /** `service_status` after the loop: each entry assigned in turn. */
  function StatusTable(services: ServiceTable, probe: string -> ProbeOutcome): OrderedDict.Dict<ServiceHealth> {
    OrderedDict.FromPairs(Entries(services, probe))
  }

  /** `all(s["status"] == "healthy" for s in service_status.values())`. */
  function Overall(table: OrderedDict.Dict<ServiceHealth>): OverallStatus {
    if forall i :: 0 <= i < |table| ==> table[i].1.status == Healthy then AllHealthy else Degraded
  }

  /** The health route: the sequential probing loop, then the reduction. */
  method GatewayHealth(services: ServiceTable, probe: string -> ProbeOutcome, now: string)
    returns (report: HealthReport)
    ensures report.services == StatusTable(services, probe)
    ensures report.status == Overall(report.services)
    ensures report.service == "api_gateway" && report.timestamp == now
  {
    var serviceStatus: OrderedDict.Dict<ServiceHealth> := [];
    var i := 0;
    while i < |services|
      invariant 0 <= i <= |services|
      invariant serviceStatus == OrderedDict.FromPairs(Entries(services[..i], probe))
    {
      var (serviceName, serviceUrl) := services[i];
      var health := Classify(probe(ProbeUrl(serviceUrl)));
      assert Entries(services[..i + 1], probe) == Entries(services[..i], probe) + [(Lower(serviceName), health)];
      serviceStatus := OrderedDict.Insert(serviceStatus, Lower(serviceName), health);
      i := i + 1;
    }
    assert services[..i] == services;
    report := HealthReport(Overall(serviceStatus), "api_gateway", now, serviceStatus);
  }

  /** No two services share a lower-cased name. */
  predicate DistinctNames(services: ServiceTable) {
    forall i, j :: 0 <= i < j < |services| ==> Lower(services[i].0) != Lower(services[j].0)
  }

  /**
   * With distinct names the table has exactly one entry per service, in
   * order, keyed by its lower-cased name and holding its probe's status.
   */
  lemma StatusTableExact(services: ServiceTable, probe: string -> ProbeOutcome)
    requires DistinctNames(services)
    ensures |StatusTable(services, probe)| == |services|
    ensures forall i :: 0 <= i < |services| ==>
              StatusTable(services, probe)[i] == (Lower(services[i].0), Classify(probe(ProbeUrl(services[i].1))))
  {
    var es := Entries(services, probe);
    assert OrderedDict.DistinctKeys(es) by {
      forall i, j | 0 <= i < j < |es| ensures es[i].0 != es[j].0 {
        assert es[i].0 == Lower(services[i].0);
      }
    }
    OrderedDict.FromPairsOfDistinct(es);
  }

  /**
   * The overall status is healthy iff every service answered its probe
   * with 200 (so an empty table is healthy), and degraded otherwise.
   */
  lemma OverallHealthyIff(services: ServiceTable, probe: string -> ProbeOutcome)
    requires DistinctNames(services)
    ensures Overall(StatusTable(services, probe)) == AllHealthy <==>
            forall i :: 0 <= i < |services| ==>
              probe(ProbeUrl(services[i].1)).Responded? && probe(ProbeUrl(services[i].1)).statusCode == 200
  {
    StatusTableExact(services, probe);
  }

  /** The three configured services have distinct lower-cased names. */
  lemma ConfiguredServicesDistinct(sensorUrl: string, aiUrl: string, notificationUrl: string)
    ensures DistinctNames(ConfiguredServices(sensorUrl, aiUrl, notificationUrl))
    ensures Lower("SENSOR_SERVICE") == "sensor_service"
    ensures Lower("AI_SERVICE") == "ai_service"
    ensures Lower("NOTIFICATION_SERVICE") == "notification_service"
  {
    assert Lower("SENSOR_SERVICE")[0] == 's';
    assert Lower("AI_SERVICE")[0] == 'a';
    assert Lower("NOTIFICATION_SERVICE")[0] == 'n';
  }

  /**
   * One service answering 200, one answering 500 and one raising: the
   * table records healthy, unhealthy and unreachable, and the whole is degraded.
   */
  lemma MixedProbesDegraded(services: ServiceTable, probe: string -> ProbeOutcome)
    requires |services| == 3 && DistinctNames(services)
    requires probe(ProbeUrl(services[0].1)).Responded? && probe(ProbeUrl(services[0].1)).statusCode == 200
    requires probe(ProbeUrl(services[1].1)).Responded? && probe(ProbeUrl(services[1].1)).statusCode == 500
    requires probe(ProbeUrl(services[2].1)).Raised?
    ensures var table := StatusTable(services, probe);
            && |table| == 3
            && table[0].1.status == Healthy && table[1].1.status == Unhealthy && table[2].1.status == Unreachable
            && Overall(table) == Degraded
  {
    StatusTableExact(services, probe);
  }
}
