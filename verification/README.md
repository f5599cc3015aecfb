# SEO audit pipeline — a Dafny model

This project models the deterministic core of an SEO audit service. The
service takes a URL and runs three agents in sequence:

- the **page auditor** scrapes the page and asks a language model for a structured audit;
- the **SERP analyst** searches for the auditor's primary keyword and asks the model to analyse the results;
- the **optimization advisor** asks the model for a Markdown report.

The scraper, the search API and the two language-model providers are
external services. Here they are parameters (`Agents.Services`). JSON
decoding with schema coercion is an oracle that returns a record, a
decoding error or another exception (`Replies.Decoded`).

What is modelled, module by module:

- `Outcomes`: `Option`, `Result`, and `Outcome` = `Ok | HttpErr | OtherErr`. `HttpErr` is an `HTTPException`; `OtherErr` is any other exception.
- `Text`: Python's `strip`, `startswith` and `endswith`, slicing `[:n]`, one-character `replace`, and `str(n)` for naturals.
- `Schemas`: the request validator, the agents' records, and the response body.
- `Settings`: the environment configuration, the model choice and the `/status` snapshot.
- `Replies`: the code-fence cleaning of model replies, and the parse step built on it.
- `Llm`: the message split done for Anthropic, the request bodies, and the provider dispatch of `call_llm`.
- `Serp`: the ten deterministic placeholder results, and the choice `search_serp` makes between them and the real results.
- `Agents`: scraping and the three agents.
- `Pipeline`: the endpoint's outcome logic, and the URL parsing and validation that run before it.

Scrape, configuration, model and JSON-decoding failures are raised as
`HTTPException` (api.py:139, 218, 241-250, 405, 488), and the endpoint
re-raises them (api.py:654-655). Only other exceptions become a `"failed"`
body (api.py:656-663), for example a schema rejection of a decoded reply.
See `Pipeline.Respond`, `Pipeline.RunSeoAudit` and
`Pipeline.FailedBodyOnlyFromSchemaRejection`.

## Model

| member | source | states |
|---|---|---|
| Schemas.ValidateUrl | api.py:51-56 | a URL is accepted, unchanged, exactly when its text starts with `http://` or `https://`; otherwise it is rejected with the validator's message |
| Schemas.AcceptedUrlShape | api.py:51-56 | an accepted URL is at least 7 characters long, starts with `http` and continues with `://` or `s://` |
| Pipeline.HandleAuditRequest | api.py:47-56 | the request field is parsed as an `HttpUrl` first, and a parse failure refuses the request with the parser's error; a parsed URL is refused exactly when its text does not start with `http://` or `https://`, with the validator's message; otherwise the reply is the audit of the parsed URL |
| Pipeline.RejectedRequestTouchesNoService | api.py:47-56 | a request whose URL fails the parse or the scheme check is refused, with the same reply whatever the services and prompt wording, so no collaborator is used |
| Text.TrimRemovesOnlySpace | api.py:391 | `strip()` removes only whitespace: the result sits in the input at some offset with whitespace on both sides |
| Text.TrimRemovesExactlySurroundingSpace | api.py:391 | for whitespace `a`, `b` and trimmed `r`, stripping `a + r + b` gives `r` back, so the strip is maximal and unique |
| Text.TrimIdempotent | api.py:398 | stripping twice is the same as stripping once |
| Replies.CleanReply | api.py:391-398 | the cleaned reply has no whitespace at either end and is never longer than the reply |
| Replies.CleanReplyIsInfix | api.py:391-398 | the cleaned reply is a contiguous substring of the raw reply |
| Replies.JsonFenceRoundTrip | api.py:391-398 | for every trimmed payload `p`, cleaning "```json\n" + p + "\n```" gives `p` |
| Replies.PlainFenceRoundTrip | api.py:394-398 | for every trimmed payload `p`, cleaning "```\n" + p + "\n```" gives `p` |
| Replies.UnfencedReplyOnlyStripped | api.py:391-398 | if a reply, once stripped, neither starts nor ends with "```", cleaning it only strips it |
| Replies.FencedAndBareCleanAlike | api.py:391-398 | for a trimmed payload with no fence at either end, the fenced and the bare forms both clean to the payload |
| Replies.DecodeCleaned | api.py:400-405 | decoding the cleaned text yields its record; a JSON decoding error becomes an `HTTPException` with the agent's detail; any other decoding exception passes through with its message |
| Replies.FencedReplyParsesAsBare | api.py:389-405 | a payload parses to the same outcome whether or not the model wrapped it in a "```json" fence |
| Settings.ConfigFromEnv | api.py:28-34 | an unset key reads as ""; an unset provider reads as "openai"; a variable that is set, even to "", is taken as it is |
| Settings.LlmModel | api.py:36-40 | the model is the Anthropic one exactly when the provider is "anthropic", and the OpenAI one for every other value |
| Settings.GetStatus | api.py:666-677 | the snapshot reports "operational"; "configured"/"not_configured" for the scrape key; "configured"/"mock_mode" for the search key; the provider and its model; and an LLM flag that is true when either provider key is set |
| Settings.GetStatusForSelectedProvider | api.py:674 | corrected status: the LLM flag holds exactly when the selected provider's key is set; every other field is as in `/status` |
| Llm.NonSystem | api.py:180-187 | the converted list is no longer than the input, and every message in it comes from the input and is not a system message |
| Llm.NonSystemAppend | api.py:180-187 | converting a concatenation gives the concatenation of the conversions, so non-system messages keep their relative order |
| Llm.NonSystemKeepsAll | api.py:180-187 | a list without system messages comes through unchanged: same order, roles and contents |
| Llm.LastSystemContentIsLast | api.py:177-183 | the system text is the content of the system message that has no system message after it, or "" when there is no system message |
| Llm.SplitSystemMessages | api.py:177-187 | the conversion loop returns the last system message's content and the non-system messages in order |
| Llm.AnthropicRequestFor | api.py:189-197 | the Anthropic body has a `system` field exactly when the system text is non-empty, and that field holds the text; its messages are the non-system ones |
| Llm.AgentConversationSplit | api.py:381-384 | an agent's system-plus-user conversation becomes a body whose `system` is the instruction and whose only message is the user prompt |
| Llm.RequestFor | api.py:133-136 | the body has the Anthropic shape exactly when the provider is "anthropic", and is then the converted body of api.py:176-197; both carry the configured model and token limit; the OpenAI body carries the messages unchanged |
| Llm.CallLlm | api.py:128-139 | the call succeeds exactly when the selected provider's key is set and the provider replies, and then returns the reply text; every failure is an `HTTPException` whose detail is "LLM API error: " followed by `str()` of what was raised: "500: Anthropic API key not configured" or "500: OpenAI API key not configured" for a missing key, the provider error's text otherwise |
| Llm.StatusOverstatesLlmConfiguration | api.py:674 | with "anthropic" selected and only an OpenAI key set, `/status` says the LLM is configured, yet `call_llm` fails whatever the provider answers |
| Llm.CorrectedStatusMatchesCallLlm | api.py:674 | the corrected flag plus a provider reply is equivalent to `call_llm` succeeding; without the flag, `call_llm` always fails |
| Serp.MockSerpResults | api.py:285-295 | there are exactly ten placeholder results; the one at index `i` has position `i + 1`, so positions run 1..10 in strictly increasing order |
| Serp.MockTitleRecoversQuery | api.py:290 | the title is "Result {n}: " + query + " - Example Site", and the query can be read back from the fixed offsets |
| Serp.MockSnippetRecoversQuery | api.py:292 | the snippet holds the query verbatim between its fixed head and tail |
| Serp.MockLinkHasNoSpace | api.py:291 | a placeholder link contains no space character, for every query |
| Serp.MockResultsEmbedQuery | api.py:287-295 | each of the ten results has the query as a substring of its title and of its snippet, and a link without spaces |
| Text.ReplaceCharRemoves | api.py:291 | after `replace(' ', '-')` no space remains, and the text is unchanged exactly when it had no space |
| Text.DecimalRoundTrip | api.py:290-291 | the rank rendered into titles and links reads back as the same number |
| Serp.SearchSerp | api.py:253-282 | with no search key, or when the call raises, the result is the placeholders; otherwise it is the first `min(10, n)` organic results, in order; it never has more than ten entries |
| Serp.SecondCutIsNoOp | api.py:419 | the analyst's own `[:10]` cut of the search result changes nothing |
| Serp.StatusMockModeMatchesSearch | api.py:257-259 | `/status` says "mock_mode" exactly when the search step returns the placeholders whatever the search service answers |
| Agents.ScrapeWithFirecrawl | api.py:213-250 | scraping succeeds exactly when the key is set and the service reports success, and then returns the page data; each failure is an `HTTPException` with its own detail: "Firecrawl API key not configured" for a missing key, "Scraping error: 500: Firecrawl scraping failed" for an unsuccessful reply, "Firecrawl error: " + the error for an error status, "Scraping error: " + the error for any other exception |
| Agents.StatusScraperMatchesScrape | api.py:217-218 | `/status` says "not_configured" for the scraper exactly when scraping fails whatever the service answers |
| Agents.AuditPromptFor | api.py:308-327 | the prompt embeds the first `min(8000, n)` characters of the page markdown, the link count, and the title or "Not available" |
| Agents.PageAuditor | api.py:298-405 | a scrape failure is re-raised unchanged; a failed model call is re-raised unchanged; otherwise the cleaned reply is decoded: a record is the audit, non-JSON gives "Failed to parse audit results", any other decoding exception passes through; the auditor succeeds exactly when scrape, model call and decoding all do |
| Agents.FencedAuditReplyAuditsAsBare | api.py:389-405 | a provider answering a trimmed payload inside a "```json" fence and one answering the bare payload give the same audit outcome |
| Agents.AnalystResults | api.py:416-419 | the analyst embeds exactly what the search step returned, its own `[:10]` cut dropping nothing: at most ten results, the placeholders when no search key is set, and otherwise the search outcome for the keyword |
| Agents.SerpAnalyst | api.py:408-488 | searching never makes the analyst fail; a failed model call is re-raised unchanged; otherwise the cleaned reply is decoded: a record is the analysis, non-JSON gives "Failed to parse SERP analysis", any other decoding exception passes through; the analyst succeeds exactly when model call and decoding do |
| Agents.AnalystIgnoresSearchWithoutKey | api.py:257-259 | without a search key the analysis does not depend on the search service |
| Agents.OptimizationAdvisor | api.py:491-615 | the advisor succeeds exactly when its model call does, and the report is then the reply stripped; a failed call is re-raised unchanged, so every failure is an `HTTPException` |
| Agents.AdvisorDropsSurroundingSpace | api.py:613-615 | with the key set, a provider answering `a + t + b`, where `a` and `b` are whitespace and `t` is trimmed, yields exactly the report `t` |
| Pipeline.CompletedResponse | api.py:645-652 | a completed body has status "completed", an audit, an analysis and a report, and no error |
| Pipeline.FailedResponse | api.py:656-663 | a failed body has status "failed" and the error message, and no audit, analysis or report |
| Pipeline.Respond | api.py:627-663 | the agents' joint result decides the reply: a result gives a completed body with the three outputs; an `HTTPException` is re-raised with its detail; any other exception gives a failed body with its message; each happens exactly in its case |
| Pipeline.RunSeoAudit | api.py:622-663 | every body is completed or failed, never partial; a completed body holds agent 1's audit, the analysis of agent 1's primary keyword, and the report on both; an `HTTPException` from any agent is re-raised with its detail; any other exception gives a failed body with its message |
| Pipeline.UnsuccessfulScrapeIsReraised | api.py:240-250 | a scrape the service reports as unsuccessful makes the endpoint re-raise "Scraping error: 500: Firecrawl scraping failed" |
| Pipeline.FailedBodyOnlyFromSchemaRejection | api.py:654-663 | a "failed" body's error message is one that a schema rejection produced for agent 1 or agent 2 |

## Findings

| source | as written | input that shows it | evidently intended | confidence | as-written member | corrected member |
|---|---|---|---|---|---|---|
| api.py:674 | `llm_configured` is true when either provider key is set | `LLM_PROVIDER=anthropic`, `OPENAI_API_KEY` set, `ANTHROPIC_API_KEY` unset | report whether the selected provider, the one `call_llm` uses, has its key | medium, not executed | Llm.StatusOverstatesLlmConfiguration | Settings.GetStatusForSelectedProvider |

`Settings.GetStatus` keeps the endpoint as written.
`Llm.CorrectedStatusMatchesCallLlm` proves that the corrected flag agrees with `call_llm`.

## Left out

- HTTP traffic to the scraper, the search API and both model providers is not modelled. That covers URLs, headers, timeouts and `raise_for_status`. Each call is a function parameter returning its possible outcomes.
- JSON decoding and pydantic coercion are not modelled, including field defaults and type checks. They are the `Decoded` oracle.
- The prompt wording is not modelled. The `Templates` parameter renders the prompt text; the model keeps only the data each prompt embeds.
- The status code of each `HTTPException` is not carried. Every `HTTPException` in the core has status 500, so an `HttpErr` holds only the detail.
- `audit_id` and `timestamp` are not modelled. They come from the wall clock.
- Logging is not modelled.
- Async/await is modelled as plain sequential composition, because the pipeline is strictly sequential.
- main.py is not part of this model: app construction, static files, templates, the health endpoint, exception handlers and the server launch.
- Pipeline.HandleAuditRequest: pydantic's `HttpUrl` parsing and normalization (api.py:49) are the `parseUrl` parameter. Which URLs it refuses, how it normalizes them, and the shape of the framework's 422 error body are not modelled.
- Llm.RequestFor: the OpenAI body's fixed temperature (a float) is not modelled. Neither is the `response_format` parameter, which no caller passes.
- Llm.CallLlm: `str()` of a nested `HTTPException` is rendered as "status: detail", which is Starlette's rendering. The framework's code is not part of this model.
- Agents.ScrapeWithFirecrawl: a response whose `data` key is present but `null` is not modelled. Neither is the resulting attribute error. Page data is always an object with defaults.
- Agents.AuditPromptFor: there are no `null` metadata entries in this model. In the source, a `title`, `description` or `keywords` entry that is present but `null` renders as "None" in the prompt, not as "Not available".
- Llm.CallLlm: reply text is always a string. OpenAI's `message.content` (api.py:168) may be `null`. Then `response.strip()` raises `AttributeError` inside the parse `try` of agent 1 (api.py:391) and agent 2 (api.py:474), and `report.strip()` raises it in agent 3 (api.py:615). None of these is an `HTTPException`, so the endpoint returns a "failed" body. The model does not reach that path.
- Pipeline.FailedBodyOnlyFromSchemaRejection: holds only because replies and scraped fields are never `null` here. In the source, a `null` model reply (see Llm.CallLlm) also ends in a "failed" body. So does a `null` `metadata`, `markdown` or `links` in the scrape data (api.py:319, 324, 327), or a `null` `data` object. The lemma does not cover these.
- Serp.SerpEntry: real organic results carry more keys than position, title, link and snippet. The extra keys are not modelled.
