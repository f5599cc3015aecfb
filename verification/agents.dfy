/** The three agents of the audit. Each one calls its collaborators, all of
    them parameters here, and fails all-or-nothing. */
module Agents {
  import opened Outcomes
  import opened Text
  import opened Settings
  import opened Schemas
  import opened Replies
  import opened Llm
  import opened Serp

  // ---------------------------------------------------------------------------
  // Collaborators
  // ---------------------------------------------------------------------------

  datatype PageMetadata = PageMetadata(title: Option<string>, description: Option<string>, keywords: Option<string>)

  /** The `data` object of a scrape response, with absent keys read as their
      defaults (empty text, no links, no metadata). */
  datatype ScrapedPage = ScrapedPage(markdown: string, html: string, links: seq<string>, metadata: PageMetadata)

  /** What the scrape service call produced: a decoded body with its
      `success` flag, an error status (`raise_for_status`), or any other
      exception; the failures carry their `str()`. */
  datatype ScrapeReply =
    | Scraped(success: bool, data: ScrapedPage)
    | ScrapeStatusError(reason: string)
    | ScrapeException(reason: string)

  /** The network-facing services, each a function of what is sent, plus the
      JSON decoding and schema coercion of the two structured agents. */
  datatype Services = Services(
    scrape: string -> ScrapeReply,
    search: string -> SearchReply,
    complete: LlmRequest -> LlmReply,
    decodeAudit: string -> Decoded<PageAuditOutput>,
    decodeSerp: string -> Decoded<SerpAnalysis>)

  /** The data each prompt embeds. */
  datatype AuditPromptData = AuditPromptData(
    url: string,
    title: string,
    description: string,
    keywords: string,
    markdownExcerpt: string,
    linkCount: nat)

  datatype SerpPromptData = SerpPromptData(keyword: string, results: seq<SerpEntry>)

  datatype ReportPromptData = ReportPromptData(url: string, pageAudit: PageAuditOutput, serpAnalysis: SerpAnalysis)

  /** The wording around the embedded data, which is not part of this model. */
  datatype Templates = Templates(
    auditPrompt: AuditPromptData -> string,
    serpPrompt: SerpPromptData -> string,
    reportPrompt: ReportPromptData -> string)

  // ---------------------------------------------------------------------------
  // Scraping
  // ---------------------------------------------------------------------------

  const ScrapeKeyMissing := "Firecrawl API key not configured"
  const ScrapeUnsuccessful := "Firecrawl scraping failed"
  const ScrapeStatusPrefix := "Firecrawl error: "
  const ScrapeErrorPrefix := "Scraping error: "

  /** `scrape_with_firecrawl`. A missing key fails before the call. A reply
      without `success` raises inside the `try`, so the generic handler wraps
      it once more. Every failure is an `HTTPException`. */
  function ScrapeWithFirecrawl(cfg: Config, reply: ScrapeReply): (r: Outcome<ScrapedPage>)
    ensures !r.OtherErr?
    ensures r.Ok? <==> cfg.firecrawlKey != "" && reply.Scraped? && reply.success
    ensures r.Ok? ==> r.value == reply.data
    ensures cfg.firecrawlKey == "" ==> r == HttpErr(ScrapeKeyMissing)
    ensures cfg.firecrawlKey != "" && reply.Scraped? && !reply.success
      ==> r == HttpErr(ScrapeErrorPrefix + HttpExceptionText(InternalServerError, ScrapeUnsuccessful))
    ensures cfg.firecrawlKey != "" && reply.ScrapeStatusError? ==> r == HttpErr(ScrapeStatusPrefix + reply.reason)
    ensures cfg.firecrawlKey != "" && reply.ScrapeException? ==> r == HttpErr(ScrapeErrorPrefix + reply.reason)
  {
    if cfg.firecrawlKey == "" then HttpErr(ScrapeKeyMissing)
    else
      match reply
      case Scraped(success, data) =>
        if success then Ok(data)
        else HttpErr(ScrapeErrorPrefix + HttpExceptionText(InternalServerError, ScrapeUnsuccessful))
      case ScrapeStatusError(reason) => HttpErr(ScrapeStatusPrefix + reason)
      case ScrapeException(reason) => HttpErr(ScrapeErrorPrefix + reason)
  }

  /** `/status` reports the scraper "not_configured" exactly when scraping
      fails whatever the service would answer. */
  lemma StatusScraperMatchesScrape(cfg: Config)
    ensures GetStatus(cfg).firecrawl == "not_configured"
      <==> forall reply :: ScrapeWithFirecrawl(cfg, reply).HttpErr?
  {
    if cfg.firecrawlKey != "" {
      var page := ScrapedPage("", "", [], PageMetadata(None, None, None));
      assert ScrapeWithFirecrawl(cfg, Scraped(true, page)).Ok?;
    }
  }

  // ---------------------------------------------------------------------------
  // Agent 1: page auditor
  // ---------------------------------------------------------------------------

  /** The page-content budget of the audit prompt, in characters. */
  const MarkdownBudget: nat := 8000
  const NotAvailable := "Not available"
  const AuditorInstruction := "You are an expert SEO auditor. Always respond with valid JSON only."
  const AuditParseFailure := "Failed to parse audit results"
  const AuditMaxTokens: nat := 3000

  /** The data the audit prompt embeds: the URL, the metadata with a
      placeholder for absent entries, the first 8000 characters of the page,
      and the number of links. */
  function AuditPromptFor(url: string, page: ScrapedPage): (d: AuditPromptData)
    ensures |d.markdownExcerpt| == if |page.markdown| <= MarkdownBudget then |page.markdown| else MarkdownBudget
    ensures d.markdownExcerpt == page.markdown[..|d.markdownExcerpt|]
    ensures d.linkCount == |page.links|
    ensures page.metadata.title.None? ==> d.title == NotAvailable
    ensures page.metadata.title.Some? ==> d.title == page.metadata.title.value
  {
    AuditPromptData(
      url,
      page.metadata.title.GetOr(NotAvailable),
      page.metadata.description.GetOr(NotAvailable),
      page.metadata.keywords.GetOr(NotAvailable),
      Take(page.markdown, MarkdownBudget),
      |page.links|)
  }

  function Conversation(instruction: string, prompt: string): seq<Message> {
    [Message(SystemRole, instruction), Message(UserRole, prompt)]
  }

  /** The model call of the page auditor for a scraped page. */
  function AuditorCall(url: string, page: ScrapedPage, cfg: Config, svc: Services, tpl: Templates): Outcome<string> {
    CallLlm(cfg, Conversation(AuditorInstruction, tpl.auditPrompt(AuditPromptFor(url, page))), AuditMaxTokens, svc.complete)
  }

  /** `agent_page_auditor`: scrape, ask the model, parse the reply. A failing
      scrape or model call and a reply that is not JSON all end in an
      `HTTPException`; only a schema rejection escapes as another error. */
  function PageAuditor(url: string, cfg: Config, svc: Services, tpl: Templates): (r: Outcome<PageAuditOutput>)
    ensures var scraped := ScrapeWithFirecrawl(cfg, svc.scrape(url));
      scraped.IsFailure() ==> r == scraped.PropagateFailure()
    ensures var scraped := ScrapeWithFirecrawl(cfg, svc.scrape(url));
      scraped.Ok? ==>
        var reply := AuditorCall(url, scraped.value, cfg, svc, tpl);
        && (reply.HttpErr? ==> r == HttpErr(reply.detail))
        && (reply.Ok? ==>
              var decoded := svc.decodeAudit(CleanReply(reply.value));
              && (decoded.Decoded? ==> r == Ok(decoded.value))
              && (decoded.NotJson? ==> r == HttpErr(AuditParseFailure))
              && (decoded.Invalid? ==> r == OtherErr(decoded.message)))
    // The auditor succeeds exactly when the scrape and the model call do and
    // the cleaned reply decodes.
    ensures r.Ok? <==>
      var scraped := ScrapeWithFirecrawl(cfg, svc.scrape(url));
      && scraped.Ok?
      && AuditorCall(url, scraped.value, cfg, svc, tpl).Ok?
      && svc.decodeAudit(CleanReply(AuditorCall(url, scraped.value, cfg, svc, tpl).value)).Decoded?
    ensures r.OtherErr? ==> exists text :: svc.decodeAudit(text) == Invalid(r.message)
  {
    var page :- ScrapeWithFirecrawl(cfg, svc.scrape(url));
    var reply :- AuditorCall(url, page, cfg, svc, tpl);
    ParseReply(reply, svc.decodeAudit, AuditParseFailure)
  }

  /** Whether the model fences its JSON or not makes no difference to the
      audit: a provider answering `p` inside a "```json" fence and one
      answering the bare `p` give the same outcome. */
  lemma FencedAuditReplyAuditsAsBare(url: string, cfg: Config, svc: Services, tpl: Templates, p: string)
    requires IsTrimmed(p) && !StartsWith(p, Fence) && !EndsWith(p, Fence)
    ensures PageAuditor(url, cfg, svc.(complete := req => Replied(JsonFenced(p))), tpl)
         == PageAuditor(url, cfg, svc.(complete := req => Replied(p)), tpl)
  {
    var fenced := svc.(complete := req => Replied(JsonFenced(p)));
    var bare := svc.(complete := req => Replied(p));
    var scraped := ScrapeWithFirecrawl(cfg, svc.scrape(url));
    if scraped.Ok? && SelectedLlmKey(cfg) != "" {
      assert AuditorCall(url, scraped.value, cfg, fenced, tpl) == Ok(JsonFenced(p));
      assert AuditorCall(url, scraped.value, cfg, bare, tpl) == Ok(p);
      FencedReplyParsesAsBare(p, svc.decodeAudit, AuditParseFailure);
    }
  }

  // ---------------------------------------------------------------------------
  // Agent 2: SERP analyst
  // ---------------------------------------------------------------------------

  const AnalystInstruction := "You are an expert SEO competitive analyst. Always respond with valid JSON only."
  const SerpParseFailure := "Failed to parse SERP analysis"
  const SerpMaxTokens: nat := 3000

  /** The search results the analyst's prompt embeds for a keyword. */
  function AnalystResults(keyword: string, cfg: Config, svc: Services): (results: seq<SerpEntry>)
    ensures |results| <= ResultLimit
    ensures cfg.serpKey == "" ==> results == MockSerpResults(keyword)
    // The analyst's own cut keeps every result the search step returned.
    ensures results == SearchSerp(keyword, cfg.serpKey, svc.search(keyword))
  {
    Take(SearchSerp(keyword, cfg.serpKey, svc.search(keyword)), ResultLimit)
  }

  /** The model call of the SERP analyst for a keyword. */
  function AnalystCall(keyword: string, cfg: Config, svc: Services, tpl: Templates): Outcome<string> {
    var prompt := tpl.serpPrompt(SerpPromptData(keyword, AnalystResults(keyword, cfg, svc)));
    CallLlm(cfg, Conversation(AnalystInstruction, prompt), SerpMaxTokens, svc.complete)
  }

  /** `agent_serp_analyst`: search, ask the model, parse the reply. Searching
      never fails; a failing model call or a reply that is not JSON ends in
      an `HTTPException`. */
  function SerpAnalyst(keyword: string, cfg: Config, svc: Services, tpl: Templates): (r: Outcome<SerpAnalysis>)
    ensures var reply := AnalystCall(keyword, cfg, svc, tpl);
      && (reply.HttpErr? ==> r == HttpErr(reply.detail))
      && (reply.Ok? ==>
            var decoded := svc.decodeSerp(CleanReply(reply.value));
            && (decoded.Decoded? ==> r == Ok(decoded.value))
            && (decoded.NotJson? ==> r == HttpErr(SerpParseFailure))
            && (decoded.Invalid? ==> r == OtherErr(decoded.message)))
    // The analyst succeeds exactly when the model call does and the cleaned
    // reply decodes.
    ensures r.Ok? <==>
      && AnalystCall(keyword, cfg, svc, tpl).Ok?
      && svc.decodeSerp(CleanReply(AnalystCall(keyword, cfg, svc, tpl).value)).Decoded?
    ensures r.HttpErr? ==> StartsWith(r.detail, LlmErrorPrefix) || r.detail == SerpParseFailure
    ensures r.OtherErr? ==> exists text :: svc.decodeSerp(text) == Invalid(r.message)
  {
    var reply :- AnalystCall(keyword, cfg, svc, tpl);
    ParseReply(reply, svc.decodeSerp, SerpParseFailure)
  }

  /** Without a search key the analyst never consults the search service:
      two services that differ only there give the same analysis. */
  lemma AnalystIgnoresSearchWithoutKey(keyword: string, cfg: Config, svc: Services, search: string -> SearchReply, tpl: Templates)
    requires cfg.serpKey == ""
    ensures SerpAnalyst(keyword, cfg, svc.(search := search), tpl) == SerpAnalyst(keyword, cfg, svc, tpl)
  {
    assert AnalystResults(keyword, cfg, svc.(search := search)) == AnalystResults(keyword, cfg, svc);
    assert AnalystCall(keyword, cfg, svc.(search := search), tpl) == AnalystCall(keyword, cfg, svc, tpl);
  }

  // ---------------------------------------------------------------------------
  // Agent 3: optimization advisor
  // ---------------------------------------------------------------------------

  const AdvisorInstruction := "You are a senior SEO consultant creating detailed audit reports."
  const ReportMaxTokens: nat := 4000

  /** The model call of the optimization advisor. */
  function AdvisorCall(url: string, audit: PageAuditOutput, serp: SerpAnalysis,
                       cfg: Config, svc: Services, tpl: Templates): Outcome<string> {
    CallLlm(cfg, Conversation(AdvisorInstruction, tpl.reportPrompt(ReportPromptData(url, audit, serp))), ReportMaxTokens, svc.complete)
  }

  /** `agent_optimization_advisor`: one model call; the report is the reply
      without surrounding whitespace, and every failure is an
      `HTTPException`. */
  function OptimizationAdvisor(url: string, audit: PageAuditOutput, serp: SerpAnalysis,
                               cfg: Config, svc: Services, tpl: Templates): (r: Outcome<string>)
    ensures !r.OtherErr?
    ensures r.Ok? <==> AdvisorCall(url, audit, serp, cfg, svc, tpl).Ok?
    ensures r.Ok? ==> IsTrimmed(r.value) && r.value == Trim(AdvisorCall(url, audit, serp, cfg, svc, tpl).value)
    ensures r.HttpErr? ==> r == AdvisorCall(url, audit, serp, cfg, svc, tpl)
  {
    var report :- AdvisorCall(url, audit, serp, cfg, svc, tpl);
    Ok(Trim(report))
  }

  /** Whitespace the model puts around its report is dropped and nothing
      else is: a provider answering `a + t + b`, with `a` and `b` whitespace
      and `t` trimmed, yields the report `t`. */
  lemma AdvisorDropsSurroundingSpace(url: string, audit: PageAuditOutput, serp: SerpAnalysis,
                                     cfg: Config, svc: Services, tpl: Templates, a: string, t: string, b: string)
    requires AllSpace(a) && AllSpace(b) && IsTrimmed(t)
    requires SelectedLlmKey(cfg) != ""
    ensures OptimizationAdvisor(url, audit, serp, cfg, svc.(complete := req => Replied(a + t + b)), tpl) == Ok(t)
  {
    var padded := svc.(complete := req => Replied(a + t + b));
    assert AdvisorCall(url, audit, serp, cfg, padded, tpl) == Ok(a + t + b);
    TrimRemovesExactlySurroundingSpace(a, t, b);
  }
}
