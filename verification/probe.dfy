/** The `/status` route: one probe post to the primary URL, a second to the
    legacy URL only when the first raises, and an in-body report that is
    always sent with HTTP status 200. */
module StatusProbe {
  import opened Wrappers
  import opened Json
  import opened Http
  import opened Endpoints
  import opened Resolver

  /** Default of the configurable primary base URL. */
  const PrimaryBaseUrl := "https://nano-gpt.com/api/v1"
  const PrimaryProbeUrl := PrimaryBaseUrl + OfficialSuffix
  const LegacyProbeUrl := "https://api.nanogpt.com/v1/chat/completions"

  /** The route refuses to start without an API key, so a running route
      always reports one as configured. */
  const ApiKeyConfigured := true

  /** One run of the probe: the reply and the URLs posted to, in order. */
  datatype ProbeRun = ProbeRun(reply: Reply, contacted: seq<string>)

  /** The reported connectivity, read back from the reply body. */
  function Connectivity(run: ProbeRun): (c: string) {
    if run.reply.body.JObj? && "nanogpt_connectivity" in run.reply.body.fields
       && run.reply.body.fields["nanogpt_connectivity"].JStr?
    then run.reply.body.fields["nanogpt_connectivity"].s
    else ""
  }

  /** Reference for the status the probe obtains: the primary's when it
      answered, else the legacy URL's when that answered. */
  function ObtainedStatus(primary: Attempt, legacy: Attempt): (status: Option<nat>) {
    if primary.Received? then Some(primary.response.status)
    else if legacy.Received? then Some(legacy.response.status)
    else None
  }

  /** The probe, where `primary` and `legacy` are what posting the test
      request to the primary and legacy URL yields. When both raise, the
      error text quotes the primary's exception, not the legacy one's. */
  function Probe(primary: Attempt, legacy: Attempt): (run: ProbeRun)
    ensures run.reply.status == 200
    ensures run.contacted == if primary.TransportFailure? then [PrimaryProbeUrl, LegacyProbeUrl] else [PrimaryProbeUrl]
    ensures run.reply.body.JObj? && "proxy_status" in run.reply.body.fields
    ensures run.reply.body.fields["proxy_status"] == JStr("operational")
    ensures Connectivity(run) == "success" <==> ObtainedStatus(primary, legacy) == Some(200)
    ensures Connectivity(run) == "success" || Connectivity(run) == "failed"
    ensures ObtainedStatus(primary, legacy).Some? <==> "nanogpt_status_code" in run.reply.body.fields
    ensures ObtainedStatus(primary, legacy).Some? ==>
              run.reply.body.fields["nanogpt_status_code"] == JNum(ObtainedStatus(primary, legacy).value as real)
    ensures primary.TransportFailure? && legacy.TransportFailure? ==>
              run.reply.body.fields.Keys == {"proxy_status", "nanogpt_connectivity", "error", "api_key_configured"}
              && run.reply.body.fields["error"] == JStr("Both API formats failed: " + primary.reason)
  {
    match primary
    case Received(resp) => Report(resp, [PrimaryProbeUrl])
    case TransportFailure(reason) =>
      match legacy
      case Received(resp) => Report(resp, [PrimaryProbeUrl, LegacyProbeUrl])
      case TransportFailure(_) =>
        ProbeRun(Reply(200, JObj(map[
          "proxy_status" := JStr("operational"),
          "nanogpt_connectivity" := JStr("failed"),
          "error" := JStr("Both API formats failed: " + reason),
          "api_key_configured" := JBool(ApiKeyConfigured)])), [PrimaryProbeUrl, LegacyProbeUrl])
  }

  /** The report for a probe post that got a response. */
  function Report(resp: Response, contacted: seq<string>): (run: ProbeRun) {
    ProbeRun(Reply(200, JObj(map[
        "proxy_status" := JStr("operational"),
        "nanogpt_connectivity" := JStr(if resp.status == 200 then "success" else "failed"),
        "nanogpt_status_code" := JNum(resp.status as real),
        "api_key_configured" := JBool(ApiKeyConfigured)])), contacted)
  }
}
