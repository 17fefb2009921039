/**
 * Knowledge extraction for one discovered session: read its transcript,
 * ask the language model for a structured answer, and fall back to a
 * heuristic summary when there is nothing to read, when the run is a dry
 * run, when the call fails, or when the answer has the wrong shape.  The
 * `engine` tag of the result says which of these happened.
 *
 * The model call is an abstract outcome (`Ok(text)` or `Err`), `JSON.parse`
 * is a parameter, and the environment is a map.
 */
module Extract {
  import opened JsString
  import opened Json
  import opened Types
  import opened Sanitize
  import opened Transcript
  import opened Discovery

  /** What the headless model call gave: its text, or an error it threw. */
  datatype LlmOutcome = Ok(text: string) | Err

  /** The extraction; the lists hold the values the model produced. */
  datatype ExtractionResult = ExtractionResult(
    executiveSummary: seq<Json>,
    keyDecisions: seq<Json>,
    digest: string,
    patterns: seq<Json>,
    learnings: seq<Json>,
    significance: real,
    actionItems: seq<Json>,
    engine: string,
    model: string)

  datatype ExtractionOptions = ExtractionOptions(llmModel: string, dryRun: bool)

  const DefaultModel := "claude-haiku-4-5-20251001"
  const ModelVariable := "PIPELINE_LLM_MODEL"

  const EngineHeadless := "claude-headless"
  const EngineHeuristic := "heuristic"
  const EngineEmpty := "heuristic-empty"
  const EngineParseFail := "heuristic-parse-fail"
  const EngineLlmError := "heuristic-llm-error"
  const NoModel := "none"

  /** `opts.llmModel || process.env.PIPELINE_LLM_MODEL || DEFAULT_MODEL` */
  function ChosenModel(opts: ExtractionOptions, env: Env): (r: string)
    ensures r != []
    ensures opts.llmModel != [] ==> r == opts.llmModel
    ensures opts.llmModel == [] && EnvValue(env, ModelVariable) != [] ==> r == env[ModelVariable]
    ensures opts.llmModel == [] && EnvValue(env, ModelVariable) == [] ==> r == DefaultModel
  {
    if opts.llmModel != [] then opts.llmModel else EnvOr(env, ModelVariable, DefaultModel)
  }

  // ------------------------------------------------------------------ heuristic

  /** The messages of one role, in order. */
  function OfRole(messages: seq<Message>, role: string): (r: seq<Message>)
    ensures |r| <= |messages|
    ensures forall m :: m in r ==> m in messages && m.role == role
  {
    if messages == [] then []
    else
      var init := OfRole(messages[..|messages| - 1], role);
      var m := messages[|messages| - 1];
      assert messages == messages[..|messages| - 1] + [m];
      if m.role == role then init + [m] else init
  }

  /** `text.split('\n')[0]` */
  function FirstLine(text: string): (r: string)
    ensures |r| <= |text| && !Contains(r, "\n")
  {
    SplitOnPiecesFree(text, "\n");
    FirstLineIsPrefix(text);
    SplitOn(text, "\n")[0]
  }

  lemma FirstLineIsPrefix(text: string)
    ensures |SplitOn(text, "\n")[0]| <= |text|
  {
  }

  const NoUserMessages := "No user messages"
  const NoAssistantResponse := "No assistant response"
  const SessionLabel := "Session: "
  const UserCountLabel := " user messages, "
  const AssistantCountLabel := " assistant responses"
  const InitialRequestLabel := "Initial request: "
  const InvolvedLabel := ". The session involved "
  const ExchangesLabel := " exchanges. Started with: \""
  const FinalLabel := "\". Final response addressed: \""
  const DigestEnd := "\"."

  /** The first 200 characters of a message, or the fallback when there is none or it is empty. */
  function Opening(messages: seq<Message>, first: bool, fallback: string): (r: string)
    ensures fallback != [] ==> r != []
    ensures messages == [] ==> r == fallback
  {
    if messages == [] then fallback
    else
      var m := if first then messages[0] else messages[|messages| - 1];
      var cut := Take(m.content, 200);
      if cut != [] then cut else fallback
  }

  /** `heuristicExtraction(messages, session)` */
  function HeuristicExtraction(messages: seq<Message>, title: string, home: string): (r: ExtractionResult)
    ensures |r.executiveSummary| == 3
    ensures r.keyDecisions == [] && r.patterns == [] && r.learnings == [] && r.actionItems == []
    ensures r.significance == 0.3 && r.engine == EngineHeuristic && r.model == NoModel
    ensures r.executiveSummary[0] == JStr(SessionLabel + Sanitized(title, home))
  {
    var users := OfRole(messages, "user");
    var assistants := OfRole(messages, "assistant");
    var firstUser := Opening(users, true, NoUserMessages);
    var lastAssistant := Opening(assistants, false, NoAssistantResponse);
    ExtractionResult(
      [JStr(SessionLabel + Sanitized(title, home)),
       JStr(NatToString(|users|) + UserCountLabel + NatToString(|assistants|) + AssistantCountLabel),
       JStr(InitialRequestLabel + Sanitized(FirstLine(firstUser), home))],
      [],
      Sanitized(title + InvolvedLabel + NatToString(|messages|) + ExchangesLabel + FirstLine(firstUser) +
                FinalLabel + FirstLine(lastAssistant) + DigestEnd, home),
      [], [], 0.3, [], EngineHeuristic, NoModel)
  }

  // ------------------------------------------------------------------ the answer

  /** An array property, or [] when it is missing or not an array. */
  function ListOr(parsed: Option<Json>, key: string): (r: seq<Json>)
    ensures !IsArray(Get(parsed, key)) ==> r == []
    ensures IsArray(Get(parsed, key)) ==> r == Get(parsed, key).value.items
  {
    if IsArray(Get(parsed, key)) then Get(parsed, key).value.items else []
  }

  /** The answer `extractSessionKnowledge` accepts: an array `executive_summary` and a string `digest`. */
  function Accepted(raw: string, parse: string -> Option<Json>, model: string): (r: Option<ExtractionResult>)
    ensures r.Some? <==>
      IsArray(Get(SafeParse(raw, parse), "executive_summary")) && AsString(Get(SafeParse(raw, parse), "digest")).Some?
    ensures r.Some? ==> r.value.engine == EngineHeadless && r.value.model == model
    ensures r.Some? ==> r.value.executiveSummary == Get(SafeParse(raw, parse), "executive_summary").value.items
    ensures r.Some? ==> r.value.digest == AsString(Get(SafeParse(raw, parse), "digest")).value
    ensures r.Some? && AsNumber(Get(SafeParse(raw, parse), "significance")).None? ==> r.value.significance == 0.5
    ensures r.Some? && AsNumber(Get(SafeParse(raw, parse), "significance")).Some? ==>
      r.value.significance == AsNumber(Get(SafeParse(raw, parse), "significance")).value
    ensures r.Some? ==>
      r.value.keyDecisions == ListOr(SafeParse(raw, parse), "key_decisions") &&
      r.value.patterns == ListOr(SafeParse(raw, parse), "patterns") &&
      r.value.learnings == ListOr(SafeParse(raw, parse), "learnings") &&
      r.value.actionItems == ListOr(SafeParse(raw, parse), "action_items")
  {
    var parsed := SafeParse(raw, parse);
    var summary := Get(parsed, "executive_summary");
    var digest := AsString(Get(parsed, "digest"));
    if !IsArray(summary) || digest.None? then None
    else
      var significance := AsNumber(Get(parsed, "significance"));
      Some(ExtractionResult(
        summary.value.items, ListOr(parsed, "key_decisions"), digest.value,
        ListOr(parsed, "patterns"), ListOr(parsed, "learnings"),
        if significance.Some? then significance.value else 0.5,
        ListOr(parsed, "action_items"), EngineHeadless, model))
  }

  /** A response without a `{`…`}` span is never accepted, whatever the parser. */
  lemma NoSpanNoAnswer(raw: string, parse: string -> Option<Json>, model: string)
    requires IndexOf(Trim(raw), "{") < 0
    ensures Accepted(raw, parse, model).None?
  {
  }

  // --------------------------------------------------------------- the decision

  /** The engine decision of `extractSessionKnowledge` for the messages read from the transcript. */
  function ExtractFrom(messages: seq<Message>, title: string, home: string, opts: ExtractionOptions, env: Env,
                       llm: LlmOutcome, parse: string -> Option<Json>): (r: ExtractionResult)
    ensures messages == [] ==> r.engine == EngineEmpty && r.model == NoModel
    ensures messages == [] ==> r == HeuristicExtraction([], title, home).(engine := EngineEmpty)
    ensures messages != [] && opts.dryRun ==> r == HeuristicExtraction(messages, title, home)
    ensures r.engine == EngineHeadless <==>
      messages != [] && !opts.dryRun && llm.Ok? && Accepted(llm.text, parse, ChosenModel(opts, env)).Some?
    ensures r.engine == EngineHeadless ==> r == Accepted(llm.text, parse, ChosenModel(opts, env)).value
    ensures r.engine == EngineLlmError <==> messages != [] && !opts.dryRun && llm.Err?
    ensures r.engine == EngineParseFail <==>
      messages != [] && !opts.dryRun && llm.Ok? && Accepted(llm.text, parse, ChosenModel(opts, env)).None?
    ensures messages != [] && !opts.dryRun && r.engine != EngineHeadless ==>
      r == HeuristicExtraction(messages, title, home).(engine := r.engine, model := ChosenModel(opts, env))
    ensures messages != [] && !opts.dryRun ==> r.model == ChosenModel(opts, env)
    ensures r.engine != EngineHeadless ==>
      StartsWith(r.engine, EngineHeuristic) && |r.executiveSummary| == 3 && r.keyDecisions == [] &&
      r.patterns == [] && r.learnings == [] && r.actionItems == [] && r.significance == 0.3
  {
    EngineNames();
    var model := ChosenModel(opts, env);
    if messages == [] then HeuristicExtraction([], title, home).(engine := EngineEmpty)
    else if opts.dryRun then HeuristicExtraction(messages, title, home)
    else
      match llm
      case Err => HeuristicExtraction(messages, title, home).(engine := EngineLlmError, model := model)
      case Ok(raw) =>
        match Accepted(raw, parse, model)
        case Some(result) => result
        case None => HeuristicExtraction(messages, title, home).(engine := EngineParseFail, model := model)
  }

  /** Every fallback engine name extends "heuristic", and none is the headless engine's. */
  lemma EngineNames()
    ensures StartsWith(EngineHeuristic, EngineHeuristic) && StartsWith(EngineEmpty, EngineHeuristic)
    ensures StartsWith(EngineParseFail, EngineHeuristic) && StartsWith(EngineLlmError, EngineHeuristic)
    ensures EngineHeadless !in {EngineHeuristic, EngineEmpty, EngineParseFail, EngineLlmError}
    ensures EngineLlmError !in {EngineHeuristic, EngineEmpty, EngineParseFail}
  {
    assert EngineEmpty[..|EngineHeuristic|] == EngineHeuristic;
    assert EngineParseFail[..|EngineHeuristic|] == EngineHeuristic;
    assert EngineLlmError[..|EngineHeuristic|] == EngineHeuristic;
  }

  /** `extractSessionKnowledge(session, opts)`: the reader follows the session's source. */
  method ExtractSessionKnowledge(session: DiscoveredSession, transcript: Option<seq<Option<Json>>>, home: string,
                                 opts: ExtractionOptions, env: Env, llm: LlmOutcome, parse: string -> Option<Json>)
    returns (result: ExtractionResult)
    ensures var source := if session.source == ClaudeDesktopSource then ClaudeDesktop else ClaudeCode;
      result == ExtractFrom(if transcript.Some? then Messages(source, transcript.value) else [],
                            session.title, home, opts, env, llm, parse)
  {
    var messages;
    if session.source == ClaudeDesktopSource {
      messages := ReadDesktopTranscript(transcript);
    } else {
      messages := ReadCodeTranscript(transcript);
    }
    result := ExtractFrom(messages, session.title, home, opts, env, llm, parse);
  }

  /** A missing or empty transcript is reported as empty even on a dry run. */
  lemma EmptyBeforeDryRun(title: string, home: string, opts: ExtractionOptions, env: Env,
                          llm: LlmOutcome, parse: string -> Option<Json>)
    requires opts.dryRun
    ensures ExtractFrom([], title, home, opts, env, llm, parse).engine == EngineEmpty
    ensures ExtractFrom([], title, home, opts, env, llm, parse).engine != EngineHeuristic
  {
  }
}
