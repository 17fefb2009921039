/**
 * The records the enrichment path passes around. Their shapes follow the
 * fields the code reads and writes.
 */
module Types {
  import opened JsString
  import opened Json

  /** `'claude'` or any other provider (treated as Codex). */
  datatype Provider = Claude | Codex

  datatype SessionSummaryRequest = SessionSummaryRequest(
    provider: Provider,
    sessionId: string,
    title: string,
    sessionType: string,
    domain: string,
    project: string,
    summary: string,
    threadContent: string,
    transcriptPath: string,
    workPath: string)

  /**
   * A knowledge-note candidate. `kind` is kept as the value the model produced: the
   * source only casts it, so an array or a number stays what it is.
   */
  datatype DistillCandidate = DistillCandidate(kind: Json, title: string, summary: string, rationale: string, confidence: real)

  datatype KeyDecision = KeyDecision(decision: string, rationale: string, confidence: real)

  /** The enrichment fields chosen before distillation (the git snapshot is not modelled). */
  datatype EnrichmentBase = EnrichmentBase(
    executiveSummary: seq<string>,
    keyDecisions: seq<KeyDecision>,
    digest: string,
    recommendations: seq<DistillCandidate>,
    summaryEngine: string,
    summaryModel: string)

  /** `{ ...enrichmentBase, distillCount, enrichmentMode }` */
  datatype SessionEnrichment = SessionEnrichment(base: EnrichmentBase, distillCount: int, enrichmentMode: string)

  /** The process environment; an unset variable is absent. */
  type Env = map<string, string>

  /** `process.env[name] || ''` */
  function EnvValue(env: Env, name: string): (r: string)
    ensures name !in env ==> r == []
  {
    if name in env then env[name] else []
  }

  /** `process.env[name] || fallback`: an empty value counts as unset. */
  function EnvOr(env: Env, name: string, fallback: string): (r: string)
    ensures EnvValue(env, name) == [] ==> r == fallback
    ensures EnvValue(env, name) != [] ==> r == env[name]
  {
    if EnvValue(env, name) != [] then env[name] else fallback
  }

  /**
   * `Number(process.env[name]) || fallback`, where `toNumber` is `Number` applied to a string
   * (`None` for NaN): the fallback unless the variable is set to a non-zero number.
   */
  function EnvNumberOr(env: Env, name: string, toNumber: string -> Option<real>, fallback: real): (r: real)
    ensures name !in env || toNumber(env[name]).None? || toNumber(env[name]) == Some(0.0) ==> r == fallback
    ensures name in env && toNumber(env[name]).Some? && toNumber(env[name]).value != 0.0 ==>
      r == toNumber(env[name]).value
  {
    if name !in env then fallback
    else match toNumber(env[name])
      case None => fallback
      case Some(n) => if n == 0.0 then fallback else n
  }
}
