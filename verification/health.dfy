/** GET /api/services/health: probe both backends, record each outcome as
    data, and derive the overall status and HTTP code from the two entries. */
module Health {
  import opened Common
  import opened Gateway

  /** The body of a backend's `/health` reply, as far as the gateway reads
      it: its own `status` field (if any) and the service name. */
  datatype HealthPayload = HealthPayload(status: Option<string>, service: Option<string>)

  /** One entry of the `services` map: the probe answered, and the entry is
      `{status: 'UP', ...payload}`; or it failed, and the entry is
      `{status: 'DOWN', error}`. */
  datatype HealthEntry = Answered(payload: HealthPayload) | Down(error: string)

  /** The `status` field of an entry. The payload is spread after the
      literal `status: 'UP'`, so a payload that carries its own status wins. */
  function EntryStatus(e: HealthEntry): string {
    match e
    case Answered(payload) => if payload.status.Some? then payload.status.value else "UP"
    case Down(_) => "DOWN"
  }

  datatype HealthReport = HealthReport(userService: HealthEntry, productService: HealthEntry, overallStatus: string)

  datatype HealthResponse = HealthResponse(status: int, report: HealthReport)

  /** One probe: a reply becomes an answered entry, any failure (timeout,
      transport error, non-2xx) a DOWN entry carrying axios' message. */
  function Probe(c: CallResult<HealthPayload>): (e: HealthEntry)
    ensures c.Ok? <==> e.Answered?
    ensures c.Ok? ==> e.payload == c.body
    ensures c.Err? ==> e == Down(c.errorMessage) && EntryStatus(e) == "DOWN"
  {
    match c
    case Ok(payload) => Answered(payload)
    case Err(_, _, message) => Down(message)
  }

  /** The aggregator. Each probe is recorded independently of the other. */
  function CheckAll(users: CallResult<HealthPayload>, products: CallResult<HealthPayload>): (r: HealthResponse)
    ensures r.report.userService == Probe(users)
    ensures r.report.productService == Probe(products)
    ensures r.report.overallStatus == "HEALTHY" || r.report.overallStatus == "DEGRADED"
    ensures r.report.overallStatus == "HEALTHY" <==>
              EntryStatus(r.report.userService) == "UP" && EntryStatus(r.report.productService) == "UP"
    ensures r.status == (if r.report.overallStatus == "HEALTHY" then 200 else 503)
  {
    var u, p := Probe(users), Probe(products);
    var allHealthy := EntryStatus(u) == "UP" && EntryStatus(p) == "UP";
    HealthResponse(if allHealthy then 200 else 503,
                   HealthReport(u, p, if allHealthy then "HEALTHY" else "DEGRADED"))
  }

  /** A payload whose own status, if any, is "UP" (the backends always send
      `status: 'UP'`). */
  predicate ReportsUp(c: CallResult<HealthPayload>) {
    c.Ok? ==> c.body.status.None? || c.body.status.value == "UP"
  }

  /** With backends that report themselves UP, the gateway is HEALTHY with
      200 exactly when both probes succeed, and otherwise DEGRADED with 503
      while a probe that succeeded still shows its full entry. */
  lemma HealthyIffBothAnswer(users: CallResult<HealthPayload>, products: CallResult<HealthPayload>)
    requires ReportsUp(users) && ReportsUp(products)
    ensures var r := CheckAll(users, products);
            && (r.status == 200 <==> users.Ok? && products.Ok?)
            && (r.status == 503 <==> users.Err? || products.Err?)
            && (r.report.overallStatus == "DEGRADED" <==> r.status == 503)
            && (users.Ok? ==> r.report.userService == Answered(users.body))
            && (products.Ok? ==> r.report.productService == Answered(products.body))
  {
  }

  /** A backend that answers but reports a status other than "UP" in its
      own payload makes the gateway DEGRADED, because its status replaces
      the literal 'UP' in the entry. */
  lemma OwnStatusWins(users: CallResult<HealthPayload>, products: CallResult<HealthPayload>)
    requires users.Ok? && users.body.status.Some? && users.body.status.value != "UP"
    ensures CheckAll(users, products).status == 503
    ensures CheckAll(users, products).report.userService.Answered?
  {
  }
}
