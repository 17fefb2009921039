/**
 * The summary model used by session intelligence: which provider and model
 * to ask, how much of the transcript and thread the prompt embeds, the shape
 * a response must have, and how the result is tagged.
 */
module Llm {
  import opened JsString
  import opened Json
  import opened Types
  import opened Sanitize

  datatype ProviderMode = OpenAi | Ollama

  function ModeName(mode: ProviderMode): string {
    match mode
    case OpenAi => "openai"
    case Ollama => "ollama"
  }

  /** `getProviderMode()` */
  function GetProviderMode(env: Env): (r: ProviderMode)
    ensures r == Ollama <==> ToLower(EnvValue(env, "LOCAL_SUMMARY_PROVIDER")) == "ollama"
  {
    if ToLower(EnvValue(env, "LOCAL_SUMMARY_PROVIDER")) == "ollama" then Ollama else OpenAi
  }

  /** An unset provider variable selects the OpenAI-compatible API; so does any other value. */
  lemma OllamaOnlyWhenAsked(env: Env)
    requires "LOCAL_SUMMARY_PROVIDER" !in env || env["LOCAL_SUMMARY_PROVIDER"] == "openai"
    ensures GetProviderMode(env) == OpenAi
  {
    if "LOCAL_SUMMARY_PROVIDER" in env {
      assert ToLower("openai")[0] == 'o' && ToLower("openai")[1] == 'p';
    }
  }

  const DefaultClaudeModel := "claude-3-5-haiku-latest"
  const DefaultCodexModel := "gpt-4.1-mini"

  /** The model variable of one provider. */
  function OwnModelVariable(provider: Provider): string {
    if provider == Claude then "CLAUDE_SUMMARY_MODEL" else "CODEX_SUMMARY_MODEL"
  }

  /** `getProviderModel(provider)`: the provider's own variable, then the shared one, then a default. */
  function GetProviderModel(provider: Provider, env: Env): (r: string)
    ensures r != []
    ensures provider == Claude && EnvValue(env, "CLAUDE_SUMMARY_MODEL") != [] ==> r == env["CLAUDE_SUMMARY_MODEL"]
    ensures provider == Codex && EnvValue(env, "CODEX_SUMMARY_MODEL") != [] ==> r == env["CODEX_SUMMARY_MODEL"]
    ensures EnvValue(env, OwnModelVariable(provider)) == [] && EnvValue(env, "SESSION_SUMMARY_MODEL") != [] ==>
              r == env["SESSION_SUMMARY_MODEL"]
    ensures EnvValue(env, OwnModelVariable(provider)) == [] && EnvValue(env, "SESSION_SUMMARY_MODEL") == [] ==>
              r == (if provider == Claude then DefaultClaudeModel else DefaultCodexModel)
  {
    var own := OwnModelVariable(provider);
    var fallback := if provider == Claude then DefaultClaudeModel else DefaultCodexModel;
    EnvOr(env, own, EnvOr(env, "SESSION_SUMMARY_MODEL", fallback))
  }

  /** With no model variables set each provider gets its default model. */
  lemma DefaultModels(env: Env)
    requires "CLAUDE_SUMMARY_MODEL" !in env && "CODEX_SUMMARY_MODEL" !in env && "SESSION_SUMMARY_MODEL" !in env
    ensures GetProviderModel(Claude, env) == DefaultClaudeModel
    ensures GetProviderModel(Codex, env) == DefaultCodexModel
  {
  }

  const MaxPromptTranscript := 8000
  const MaxPromptThread := 5000

  /** The two excerpts `buildPrompt` embeds: sanitized, then cut to 8000 and 5000 characters. */
  datatype PromptExcerpts = PromptExcerpts(transcript: string, thread: string)

  function BuildPromptExcerpts(input: SessionSummaryRequest, transcriptExcerpt: string, home: string): (r: PromptExcerpts)
    ensures |r.transcript| <= MaxPromptTranscript && |r.thread| <= MaxPromptThread
    ensures StartsWith(Sanitized(transcriptExcerpt, home), r.transcript)
    ensures StartsWith(Sanitized(input.threadContent, home), r.thread)
    ensures |r.transcript| == Min(MaxPromptTranscript, |Sanitized(transcriptExcerpt, home)|)
    ensures |r.thread| == Min(MaxPromptThread, |Sanitized(input.threadContent, home)|)
  {
    PromptExcerpts(SliceTo(Sanitized(transcriptExcerpt, home), MaxPromptTranscript),
                   SliceTo(Sanitized(input.threadContent, home), MaxPromptThread))
  }

  /** The shape `safeParse` demands: an array `executive_summary` and a string `digest`. */
  predicate HasSummaryShape(parsed: Json) {
    IsArray(Get(Some(parsed), "executive_summary")) && AsString(Get(Some(parsed), "digest")).Some?
  }

  /** `safeParse(responseText)` of the summary client. */
  function ParseSummary(responseText: string, parse: string -> Option<Json>): (r: Option<Json>)
    ensures r.Some? ==> HasSummaryShape(r.value)
    ensures r.Some? <==> SafeParse(responseText, parse).Some? && HasSummaryShape(SafeParse(responseText, parse).value)
  {
    var parsed := SafeParse(responseText, parse);
    if parsed.Some? && HasSummaryShape(parsed.value) then parsed else None
  }

  /** What the HTTP transport did: returned a body text, or threw. */
  datatype Transport = Responded(text: string) | Threw

  datatype LlmSummary = LlmSummary(parsed: Option<Json>, engine: string, model: string)

  /** `generateLLMSummary(input, excerpt, gitContext)` with the transport's outcome given. */
  function GenerateLlmSummary(input: SessionSummaryRequest, env: Env, transport: Transport,
                              parse: string -> Option<Json>): (r: LlmSummary)
    ensures r.model == GetProviderModel(input.provider, env)
    ensures transport.Responded? ==> r.engine == ModeName(GetProviderMode(env)) &&
                                     r.parsed == ParseSummary(transport.text, parse)
    ensures transport.Threw? ==> r.engine == ModeName(GetProviderMode(env)) + "-fallback" && r.parsed.None?
  {
    var mode := GetProviderMode(env);
    var model := GetProviderModel(input.provider, env);
    match transport
    case Responded(text) => LlmSummary(ParseSummary(text, parse), ModeName(mode), model)
    case Threw => LlmSummary(None, ModeName(mode) + "-fallback", model)
  }

  /** The engine tag tells a transport failure from a reply, whatever the reply held. */
  lemma FallbackTagIsDistinct(input: SessionSummaryRequest, env: Env, a: Transport, b: Transport,
                              parse: string -> Option<Json>)
    requires a.Responded? && b.Threw?
    ensures GenerateLlmSummary(input, env, a, parse).engine != GenerateLlmSummary(input, env, b, parse).engine
  {
    var mode := ModeName(GetProviderMode(env));
    assert |mode + "-fallback"| > |mode|;
  }
}
