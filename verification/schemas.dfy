/** The request and response records of the audit API and the structured
    outputs the agents exchange. Fields a schema declares `Optional` may be
    null in the decoded JSON and are `Option`s here; every other field is
    always present once the record exists (missing keys take their declared
    default during coercion, which is not part of this model). */
module Schemas {
  import opened Outcomes
  import opened Text

  // ---------------------------------------------------------------------------
  // Request
  // ---------------------------------------------------------------------------

  const UrlSchemeError := "URL must start with http:// or https://"

  predicate HasWebScheme(url: string) {
    StartsWith(url, "http://") || StartsWith(url, "https://")
  }

  /** The field validator on `AuditRequest.url`: the URL text is accepted
      unchanged when it begins with "http://" or "https://" and rejected with
      the validator's message otherwise. */
  function ValidateUrl(url: string): (r: Result<string, string>)
    ensures r.Success? <==> HasWebScheme(url)
    ensures r.Success? ==> r.value == url
    ensures r.Failure? ==> r.error == UrlSchemeError
  {
    if HasWebScheme(url) then Success(url) else Failure(UrlSchemeError)
  }

  /** An accepted URL begins with "http", optionally "s", then "://"; nothing
      shorter than "http://" can be accepted. */
  lemma AcceptedUrlShape(url: string)
    requires ValidateUrl(url).Success?
    ensures |url| >= 7 && url[..4] == "http"
    ensures url[4..7] == "://" || (|url| >= 8 && url[4..8] == "s://")
  {
    if StartsWith(url, "http://") {
      assert url[..7] == "http://";
      assert url[..4] == url[..7][..4];
      assert url[4..7] == url[..7][4..7];
    } else {
      assert url[..8] == "https://";
      assert url[..4] == url[..8][..4];
      assert url[4..8] == url[..8][4..8];
    }
  }

  // ---------------------------------------------------------------------------
  // Agent 1 output
  // ---------------------------------------------------------------------------

  datatype HeadingItem = HeadingItem(tag: string, text: string)

  datatype LinkCounts = LinkCounts(
    internal: Option<int>,
    external: Option<int>,
    broken: Option<int>,
    notes: Option<string>)

  datatype AuditResults = AuditResults(
    titleTag: string,
    metaDescription: string,
    primaryHeading: string,
    secondaryHeadings: seq<HeadingItem>,
    wordCount: Option<int>,
    contentSummary: string,
    linkCounts: LinkCounts,
    technicalFindings: seq<string>,
    contentOpportunities: seq<string>)

  datatype TargetKeywords = TargetKeywords(
    primaryKeyword: string,
    secondaryKeywords: seq<string>,
    searchIntent: string,
    supportingTopics: seq<string>)

  datatype PageAuditOutput = PageAuditOutput(
    auditResults: AuditResults,
    targetKeywords: TargetKeywords)

  // ---------------------------------------------------------------------------
  // Agent 2 output
  // ---------------------------------------------------------------------------

  datatype SerpResult = SerpResult(
    rank: int,
    title: string,
    url: string,
    snippet: string,
    contentType: string)

  datatype SerpAnalysis = SerpAnalysis(
    primaryKeyword: string,
    top10Results: seq<SerpResult>,
    titlePatterns: seq<string>,
    contentFormats: seq<string>,
    peopleAlsoAsk: seq<string>,
    keyThemes: seq<string>,
    differentiationOpportunities: seq<string>)

  // ---------------------------------------------------------------------------
  // Endpoint response
  // ---------------------------------------------------------------------------

  const StatusCompleted := "completed"
  const StatusFailed := "failed"

  /** The audit endpoint's body. The audit identifier and the timestamp are
      wall-clock values and are not part of this model. */
  datatype AuditResponse = AuditResponse(
    status: string,
    pageAudit: Option<PageAuditOutput>,
    serpAnalysis: Option<SerpAnalysis>,
    report: Option<string>,
    error: Option<string>)

  /** The two shapes the endpoint builds: a completed audit with every part
      and no error, or a failed one with an error and no part at all. */
  predicate WellFormedResponse(r: AuditResponse) {
    || (r.status == StatusCompleted && r.pageAudit.Some? && r.serpAnalysis.Some?
        && r.report.Some? && r.error.None?)
    || (r.status == StatusFailed && r.pageAudit.None? && r.serpAnalysis.None?
        && r.report.None? && r.error.Some?)
  }
}
