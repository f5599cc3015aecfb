/** The provider-agnostic language-model call: OpenAI-style chat messages,
    their conversion into Anthropic's envelope, and the dispatch by the
    configured provider. The HTTP round trip itself is a parameter. */
module Llm {
  import opened Outcomes
  import opened Text
  import opened Settings

  datatype Message = Message(role: string, content: string)

  const SystemRole := "system"
  const UserRole := "user"

  predicate IsSystem(m: Message) {
    m.role == SystemRole
  }

  // ---------------------------------------------------------------------------
  // Reference definitions of the Anthropic conversion
  // ---------------------------------------------------------------------------

  /** The messages that are not system messages, in their original order. */
  function NonSystem(ms: seq<Message>): (r: seq<Message>)
    ensures |r| <= |ms|
    ensures forall i :: 0 <= i < |r| ==> !IsSystem(r[i]) && r[i] in ms
    decreases |ms|
  {
    if |ms| == 0 then []
    else
      var last := ms[|ms| - 1];
      NonSystem(ms[..|ms| - 1]) + (if IsSystem(last) then [] else [last])
  }

  /** The content of the last system message, or "" when there is none. */
  function LastSystemContent(ms: seq<Message>): string
    decreases |ms|
  {
    if |ms| == 0 then ""
    else if IsSystem(ms[|ms| - 1]) then ms[|ms| - 1].content
    else LastSystemContent(ms[..|ms| - 1])
  }

  /** Filtering distributes over concatenation, so the non-system messages
      keep their relative order. */
  lemma {:induction false} NonSystemAppend(a: seq<Message>, b: seq<Message>)
    ensures NonSystem(a + b) == NonSystem(a) + NonSystem(b)
    decreases |b|
  {
    if |b| == 0 {
      assert a + b == a;
    } else {
      var b' := b[..|b| - 1];
      assert (a + b)[..|a + b| - 1] == a + b';
      assert (a + b)[|a + b| - 1] == b[|b| - 1];
      NonSystemAppend(a, b');
    }
  }

  /** Without system messages nothing is dropped. */
  lemma {:induction false} NonSystemKeepsAll(ms: seq<Message>)
    requires forall i :: 0 <= i < |ms| ==> !IsSystem(ms[i])
    ensures NonSystem(ms) == ms
    decreases |ms|
  {
    if |ms| > 0 {
      NonSystemKeepsAll(ms[..|ms| - 1]);
      assert ms[..|ms| - 1] + [ms[|ms| - 1]] == ms;
    }
  }

  /** The system text is the content of the last system message: the one at
      an index `k` with no system message after it; "" if there is none. */
  lemma {:induction false} LastSystemContentIsLast(ms: seq<Message>)
    ensures (forall i :: 0 <= i < |ms| ==> !IsSystem(ms[i])) ==> LastSystemContent(ms) == ""
    ensures forall k ::
              (0 <= k < |ms| && IsSystem(ms[k]) && (forall j :: k < j < |ms| ==> !IsSystem(ms[j])))
              ==> LastSystemContent(ms) == ms[k].content
    decreases |ms|
  {
    if |ms| > 0 {
      var init := ms[..|ms| - 1];
      LastSystemContentIsLast(init);
      forall k | 0 <= k < |ms| && IsSystem(ms[k]) && (forall j :: k < j < |ms| ==> !IsSystem(ms[j]))
        ensures LastSystemContent(ms) == ms[k].content
      {
        if k < |ms| - 1 {
          assert init[k] == ms[k];
          assert forall j :: k < j < |init| ==> init[j] == ms[j];
        }
      }
      if forall i :: 0 <= i < |ms| ==> !IsSystem(ms[i]) {
        assert forall i :: 0 <= i < |init| ==> init[i] == ms[i];
      }
    }
  }

  // ---------------------------------------------------------------------------
  // The conversion loop of call_anthropic
  // ---------------------------------------------------------------------------

  /** The loop of `call_anthropic`: one pass over the messages that remembers
      the content of each system message (a later one overwrites an earlier
      one) and copies every other message's role and content. */
  method SplitSystemMessages(messages: seq<Message>) returns (system: string, rest: seq<Message>)
    ensures system == LastSystemContent(messages)
    ensures rest == NonSystem(messages)
  {
    system := "";
    rest := [];
    for i := 0 to |messages|
      invariant system == LastSystemContent(messages[..i])
      invariant rest == NonSystem(messages[..i])
    {
      assert messages[..i + 1][..i] == messages[..i];
      var msg := messages[i];
      if msg.role == SystemRole {
        system := msg.content;
      } else {
        rest := rest + [Message(msg.role, msg.content)];
      }
    }
    assert messages[..|messages|] == messages;
  }

  // ---------------------------------------------------------------------------
  // Request envelopes and the dispatching call
  // ---------------------------------------------------------------------------

  /** The JSON body posted to a provider. The OpenAI body's fixed
      temperature is not part of this model. */
  datatype LlmRequest =
    | OpenAiRequest(model: string, messages: seq<Message>, maxTokens: nat)
    | AnthropicRequest(model: string, maxTokens: nat, messages: seq<Message>, system: Option<string>)

  /** What the HTTP round trip to the provider yields: the reply text, or an
      exception (transport error, non-2xx status, unexpected body) with its
      `str()`. */
  datatype LlmReply = Replied(text: string) | Failed(reason: string)

  /** The Anthropic body: the system text travels separately and only when
      it is non-empty; the other messages go in order. */
  function AnthropicRequestFor(model: string, maxTokens: nat, messages: seq<Message>): (req: LlmRequest)
    ensures req.AnthropicRequest? && req.model == model && req.maxTokens == maxTokens
    ensures req.system.Some? <==> LastSystemContent(messages) != ""
    ensures req.system.Some? ==> req.system.value == LastSystemContent(messages)
    ensures req.messages == NonSystem(messages)
    ensures forall i :: 0 <= i < |req.messages| ==> !IsSystem(req.messages[i])
  {
    var system := LastSystemContent(messages);
    AnthropicRequest(model, maxTokens, NonSystem(messages), if system != "" then Some(system) else None)
  }

  /** The agents' two-message conversation, a system instruction followed by
      the user prompt, becomes a body whose system field is the instruction
      and whose only message is the prompt. */
  lemma AgentConversationSplit(model: string, maxTokens: nat, instruction: string, prompt: string)
    requires instruction != ""
    ensures var req := AnthropicRequestFor(model, maxTokens, [Message(SystemRole, instruction), Message(UserRole, prompt)]);
      req.system == Some(instruction) && req.messages == [Message(UserRole, prompt)]
  {
    var sys := Message(SystemRole, instruction);
    var user := Message(UserRole, prompt);
    var ms := [sys, user];
    assert ms[..1] == [sys];
    assert [sys][..0] == [];
    assert NonSystem([sys]) == [];
    assert NonSystem(ms) == [user];
    assert LastSystemContent([sys]) == instruction;
    assert LastSystemContent(ms) == instruction;
  }

  /** The body `call_llm` posts for the configured provider. */
  function RequestFor(cfg: Config, messages: seq<Message>, maxTokens: nat): (req: LlmRequest)
    ensures req.AnthropicRequest? <==> UsesAnthropic(cfg)
    ensures req.model == LlmModel(cfg) && req.maxTokens == maxTokens
    ensures req.OpenAiRequest? ==> req.messages == messages
    ensures UsesAnthropic(cfg) ==> req == AnthropicRequestFor(LlmModel(cfg), maxTokens, messages)
  {
    if UsesAnthropic(cfg) then AnthropicRequestFor(LlmModel(cfg), maxTokens, messages)
    else OpenAiRequest(LlmModel(cfg), messages, maxTokens)
  }

  /** `str()` of an `HTTPException`: its status code, a colon, its detail. */
  function HttpExceptionText(status: nat, detail: string): string {
    NatToDecimal(status) + ": " + detail
  }

  const LlmErrorPrefix := "LLM API error: "

  /** The error text the provider function raises before any request when
      its key is missing. */
  function MissingKeyDetail(cfg: Config): string {
    if UsesAnthropic(cfg) then "Anthropic API key not configured" else "OpenAI API key not configured"
  }

  /** `call_llm`: dispatch to the configured provider, failing first when its
      key is missing; every failure, the missing key included, is re-raised
      as an `HTTPException` whose detail starts with "LLM API error: ". */
  function CallLlm(cfg: Config, messages: seq<Message>, maxTokens: nat, complete: LlmRequest -> LlmReply): (r: Outcome<string>)
    ensures !r.OtherErr?
    ensures r.Ok? <==> SelectedLlmKey(cfg) != "" && complete(RequestFor(cfg, messages, maxTokens)).Replied?
    ensures r.Ok? ==> r.value == complete(RequestFor(cfg, messages, maxTokens)).text
    ensures r.HttpErr? ==> StartsWith(r.detail, LlmErrorPrefix)
    // The missing key and the provider's failure each reach the detail after
    // the prefix, as `str()` of what was raised.
    ensures SelectedLlmKey(cfg) == ""
      ==> r == HttpErr(LlmErrorPrefix + HttpExceptionText(InternalServerError, MissingKeyDetail(cfg)))
    ensures SelectedLlmKey(cfg) != "" && complete(RequestFor(cfg, messages, maxTokens)).Failed?
      ==> r == HttpErr(LlmErrorPrefix + complete(RequestFor(cfg, messages, maxTokens)).reason)
  {
    var inner: Result<string, string> :=
      if SelectedLlmKey(cfg) == "" then
        Failure(HttpExceptionText(InternalServerError, MissingKeyDetail(cfg)))
      else
        match complete(RequestFor(cfg, messages, maxTokens))
        case Replied(text) => Success(text)
        case Failed(reason) => Failure(reason);
    match inner
    case Success(text) => Ok(text)
    case Failure(e) =>
      assert (LlmErrorPrefix + e)[..|LlmErrorPrefix|] == LlmErrorPrefix;
      HttpErr(LlmErrorPrefix + e)
  }

  /** With Anthropic selected and only an OpenAI key, `/status` reports the
      language model as configured, yet every `call_llm` fails on the
      missing Anthropic key whatever the provider would answer. */
  lemma StatusOverstatesLlmConfiguration(messages: seq<Message>, maxTokens: nat, complete: LlmRequest -> LlmReply)
    ensures var cfg := Config("", "sk-openai", "", "", AnthropicProvider);
      && GetStatus(cfg).llmConfigured
      && CallLlm(cfg, messages, maxTokens, complete).HttpErr?
  {
  }

  /** The corrected status flag holds exactly when `call_llm` gets past its
      key check: then the call succeeds for a provider that replies, and
      without it the call fails for every provider answer. */
  lemma CorrectedStatusMatchesCallLlm(cfg: Config, messages: seq<Message>, maxTokens: nat, complete: LlmRequest -> LlmReply)
    ensures GetStatusForSelectedProvider(cfg).llmConfigured
      && complete(RequestFor(cfg, messages, maxTokens)).Replied?
      <==> CallLlm(cfg, messages, maxTokens, complete).Ok?
    ensures !GetStatusForSelectedProvider(cfg).llmConfigured
      ==> CallLlm(cfg, messages, maxTokens, complete).HttpErr?
  {
  }
}
