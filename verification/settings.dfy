/** Process-wide configuration (read once from the environment, immutable
    afterwards) and the `/status` snapshot derived from it. */
module Settings {

  /** The credentials and provider selector; an unset variable reads as "". */
  datatype Config = Config(
    firecrawlKey: string,
    openaiKey: string,
    anthropicKey: string,
    serpKey: string,
    provider: string)

  const DefaultProvider := "openai"
  const AnthropicProvider := "anthropic"
  const AnthropicModel := "claude-3-5-sonnet-20241022"
  const OpenAiModel := "gpt-4o-mini"

  /** `os.getenv(name, default)`. */
  function GetEnv(env: map<string, string>, name: string, default: string): string {
    if name in env then env[name] else default
  }

  /** Reads the configuration from the process environment. A variable that
      is set, even to the empty string, wins over the default. */
  function ConfigFromEnv(env: map<string, string>): (cfg: Config)
    ensures cfg.firecrawlKey == (if "FIRECRAWL_API_KEY" in env then env["FIRECRAWL_API_KEY"] else "")
    ensures cfg.openaiKey == (if "OPENAI_API_KEY" in env then env["OPENAI_API_KEY"] else "")
    ensures cfg.anthropicKey == (if "ANTHROPIC_API_KEY" in env then env["ANTHROPIC_API_KEY"] else "")
    ensures cfg.serpKey == (if "SERP_API_KEY" in env then env["SERP_API_KEY"] else "")
    ensures "LLM_PROVIDER" !in env ==> cfg.provider == DefaultProvider
    ensures "LLM_PROVIDER" in env ==> cfg.provider == env["LLM_PROVIDER"]
  {
    Config(
      GetEnv(env, "FIRECRAWL_API_KEY", ""),
      GetEnv(env, "OPENAI_API_KEY", ""),
      GetEnv(env, "ANTHROPIC_API_KEY", ""),
      GetEnv(env, "SERP_API_KEY", ""),
      GetEnv(env, "LLM_PROVIDER", DefaultProvider))
  }

  predicate UsesAnthropic(cfg: Config) {
    cfg.provider == AnthropicProvider
  }

  /** The model name is fixed by the provider selector alone: the Anthropic
      model exactly for "anthropic", the OpenAI model for every other value. */
  function LlmModel(cfg: Config): (model: string)
    ensures model == AnthropicModel <==> UsesAnthropic(cfg)
    ensures model == OpenAiModel <==> !UsesAnthropic(cfg)
  {
    if UsesAnthropic(cfg) then AnthropicModel else OpenAiModel
  }

  /** The credential of the provider that `call_llm` dispatches to. */
  function SelectedLlmKey(cfg: Config): string {
    if UsesAnthropic(cfg) then cfg.anthropicKey else cfg.openaiKey
  }

  datatype StatusSnapshot = StatusSnapshot(
    api: string,
    firecrawl: string,
    llmProvider: string,
    llmModel: string,
    llmConfigured: bool,
    serp: string)

  /** The `/status` report, as the endpoint computes it. */
  function GetStatus(cfg: Config): (s: StatusSnapshot)
    ensures s.api == "operational"
    ensures s.firecrawl in {"configured", "not_configured"}
    ensures s.firecrawl == "configured" <==> cfg.firecrawlKey != ""
    ensures s.serp in {"configured", "mock_mode"}
    ensures s.serp == "mock_mode" <==> cfg.serpKey == ""
    ensures s.llmProvider == cfg.provider
    ensures s.llmModel == LlmModel(cfg)
    ensures s.llmConfigured <==> cfg.openaiKey != "" || cfg.anthropicKey != ""
  {
    StatusSnapshot(
      "operational",
      if cfg.firecrawlKey != "" then "configured" else "not_configured",
      cfg.provider,
      LlmModel(cfg),
      cfg.openaiKey != "" || cfg.anthropicKey != "",
      if cfg.serpKey != "" then "configured" else "mock_mode")
  }

  /** The status flag as it reads: the credential of the SELECTED provider is
      present, which is exactly when `call_llm` can get past its key check. */
  function GetStatusForSelectedProvider(cfg: Config): (s: StatusSnapshot)
    ensures s.llmConfigured <==> SelectedLlmKey(cfg) != ""
    ensures s.(llmConfigured := GetStatus(cfg).llmConfigured) == GetStatus(cfg)
  {
    GetStatus(cfg).(llmConfigured := SelectedLlmKey(cfg) != "")
  }
}
