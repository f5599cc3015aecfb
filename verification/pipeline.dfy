/** The audit endpoint: request validation, the three agents in sequence,
    and the assembly of the response, including which failures become a
    "failed" body and which propagate to the web framework. */
module Pipeline {
  import opened Outcomes
  import opened Text
  import opened Settings
  import opened Schemas
  import opened Agents
  import Llm
  import Replies

  /** What the endpoint hands back to the web framework. */
  datatype AuditReply =
    | Responded(response: AuditResponse)  // a 200 response with this body
    | Reraised(detail: string)            // an `HTTPException` (status 500) left to the framework
    | Unprocessable(reason: string)       // the request failed validation before the handler ran

  function CompletedResponse(audit: PageAuditOutput, serp: SerpAnalysis, report: string): (r: AuditResponse)
    ensures WellFormedResponse(r) && r.status == StatusCompleted
  {
    AuditResponse(StatusCompleted, Some(audit), Some(serp), Some(report), None)
  }

  /** A failed audit keeps none of the results of the agents that did
      finish. */
  function FailedResponse(message: string): (r: AuditResponse)
    ensures WellFormedResponse(r) && r.status == StatusFailed
    ensures r.error == Some(message)
  {
    AuditResponse(StatusFailed, None, None, None, Some(message))
  }

  /** The three agents in sequence; the first failure ends the run. The SERP
      analyst gets the page auditor's primary keyword, unchecked even when
      empty. */
  function RunAgents(url: string, cfg: Config, svc: Services, tpl: Templates): Outcome<(PageAuditOutput, SerpAnalysis, string)> {
    var audit :- PageAuditor(url, cfg, svc, tpl);
    var serp :- SerpAnalyst(audit.targetKeywords.primaryKeyword, cfg, svc, tpl);
    var report :- OptimizationAdvisor(url, audit, serp, cfg, svc, tpl);
    Ok((audit, serp, report))
  }

  /** The `try`/`except` around the agents: a result becomes a completed
      body, an `HTTPException` is re-raised untouched, and any other
      exception becomes a failed body carrying its message. */
  function Respond(run: Outcome<(PageAuditOutput, SerpAnalysis, string)>): (r: AuditReply)
    ensures !r.Unprocessable?
    ensures r.Responded? ==> WellFormedResponse(r.response)
    ensures r.Reraised? <==> run.HttpErr?
    ensures run.HttpErr? ==> r.detail == run.detail
    ensures r.Responded? && r.response.status == StatusFailed <==> run.OtherErr?
    ensures run.OtherErr? ==> r.response.error == Some(run.message)
    ensures r.Responded? && r.response.status == StatusCompleted <==> run.Ok?
    ensures run.Ok? ==> && r.response.pageAudit == Some(run.value.0)
                        && r.response.serpAnalysis == Some(run.value.1)
                        && r.response.report == Some(run.value.2)
  {
    match run
    case Ok((audit, serp, report)) => Responded(CompletedResponse(audit, serp, report))
    case HttpErr(detail) => Reraised(detail)
    case OtherErr(message) => Responded(FailedResponse(message))
  }

  /** `run_seo_audit` for a validated URL. */
  function RunSeoAudit(url: string, cfg: Config, svc: Services, tpl: Templates): (r: AuditReply)
    ensures !r.Unprocessable?
    ensures r.Responded? ==> WellFormedResponse(r.response)
    // A completed body holds exactly what the three agents produced in turn,
    // the analyst having been asked about the auditor's primary keyword.
    ensures r.Responded? && r.response.status == StatusCompleted ==>
      var audit := r.response.pageAudit.value;
      var serp := r.response.serpAnalysis.value;
      && PageAuditor(url, cfg, svc, tpl) == Ok(audit)
      && SerpAnalyst(audit.targetKeywords.primaryKeyword, cfg, svc, tpl) == Ok(serp)
      && OptimizationAdvisor(url, audit, serp, cfg, svc, tpl) == Ok(r.response.report.value)
    // Agent 1 failing: an HTTPException propagates, anything else is a failed body.
    ensures var a1 := PageAuditor(url, cfg, svc, tpl);
      && (a1.HttpErr? ==> r == Reraised(a1.detail))
      && (a1.OtherErr? ==> r == Responded(FailedResponse(a1.message)))
    // Agent 2 failing after agent 1 succeeded: likewise.
    ensures var a1 := PageAuditor(url, cfg, svc, tpl);
      a1.Ok? ==>
        var a2 := SerpAnalyst(a1.value.targetKeywords.primaryKeyword, cfg, svc, tpl);
        && (a2.HttpErr? ==> r == Reraised(a2.detail))
        && (a2.OtherErr? ==> r == Responded(FailedResponse(a2.message)))
    // Agent 3 failing after both succeeded: its failures are all HTTPExceptions.
    ensures var a1 := PageAuditor(url, cfg, svc, tpl);
      a1.Ok? ==>
        var a2 := SerpAnalyst(a1.value.targetKeywords.primaryKeyword, cfg, svc, tpl);
        a2.Ok? ==>
          var a3 := OptimizationAdvisor(url, a1.value, a2.value, cfg, svc, tpl);
          && (a3.HttpErr? ==> r == Reraised(a3.detail))
          && (a3.Ok? ==> r == Responded(CompletedResponse(a1.value, a2.value, a3.value)))
  {
    Respond(RunAgents(url, cfg, svc, tpl))
  }

  /** The POST handler as the framework runs it. The request field is first
      parsed as an `HttpUrl` (`parseUrl`, which yields the URL's text or the
      parser's error), then the validator checks that text, then the audit
      runs on it. */
  function HandleAuditRequest(rawUrl: string, parseUrl: string -> Result<string, string>,
                              cfg: Config, svc: Services, tpl: Templates): (r: AuditReply)
    ensures parseUrl(rawUrl).Failure? ==> r == Unprocessable(parseUrl(rawUrl).error)
    ensures parseUrl(rawUrl).Success? ==>
      var url := parseUrl(rawUrl).value;
      && (r.Unprocessable? <==> !HasWebScheme(url))
      && (r.Unprocessable? ==> r.reason == UrlSchemeError)
      && (!r.Unprocessable? ==> r == RunSeoAudit(url, cfg, svc, tpl))
  {
    match parseUrl(rawUrl)
    case Failure(reason) => Unprocessable(reason)
    case Success(parsed) =>
      match ValidateUrl(parsed)
      case Failure(reason) => Unprocessable(reason)
      case Success(url) => RunSeoAudit(url, cfg, svc, tpl)
  }

  /** A refused URL is refused before any collaborator is consulted: the
      reply is the same whatever the services and templates. */
  lemma RejectedRequestTouchesNoService(rawUrl: string, parseUrl: string -> Result<string, string>, cfg: Config,
                                        svc: Services, svc': Services, tpl: Templates, tpl': Templates)
    requires parseUrl(rawUrl).Failure? || !HasWebScheme(parseUrl(rawUrl).value)
    ensures HandleAuditRequest(rawUrl, parseUrl, cfg, svc, tpl) == HandleAuditRequest(rawUrl, parseUrl, cfg, svc', tpl')
    ensures HandleAuditRequest(rawUrl, parseUrl, cfg, svc, tpl).Unprocessable?
  {
  }

  /** A scrape the service reports as unsuccessful is an `HTTPException`, so
      the endpoint re-raises it instead of answering with a failed body. */
  lemma UnsuccessfulScrapeIsReraised(url: string, cfg: Config, svc: Services, tpl: Templates)
    requires cfg.firecrawlKey != ""
    requires svc.scrape(url).Scraped? && !svc.scrape(url).success
    ensures RunSeoAudit(url, cfg, svc, tpl)
      == Reraised(ScrapeErrorPrefix + Llm.HttpExceptionText(InternalServerError, ScrapeUnsuccessful))
  {
  }

  /** With model replies and scraped fields never null, as this model types
      them, the endpoint answers 200 with a "failed" body only when a schema
      rejected a model reply; every other failure propagates. */
  lemma FailedBodyOnlyFromSchemaRejection(url: string, cfg: Config, svc: Services, tpl: Templates)
    ensures var r := RunSeoAudit(url, cfg, svc, tpl);
      r.Responded? && r.response.status == StatusFailed ==>
        var message := r.response.error.value;
        || (exists text :: svc.decodeAudit(text) == Replies.Invalid(message))
        || (exists text :: svc.decodeSerp(text) == Replies.Invalid(message))
  {
    var r := RunSeoAudit(url, cfg, svc, tpl);
    if r.Responded? && r.response.status == StatusFailed {
      var run := RunAgents(url, cfg, svc, tpl);
      assert run.OtherErr? && r.response.error.value == run.message;
      var a1 := PageAuditor(url, cfg, svc, tpl);
      if a1.Ok? {
        var a2 := SerpAnalyst(a1.value.targetKeywords.primaryKeyword, cfg, svc, tpl);
        assert a2.OtherErr? && a2.message == run.message;
      } else {
        assert a1.OtherErr? && a1.message == run.message;
      }
    }
  }
}
