/**
 * Session intelligence: the enrichment written for a captured session. A
 * heuristic base is replaced by the summary model's answer when it has the
 * right shape (capped and clamped), and the confident recommendations are
 * distilled into knowledge notes without overwriting existing files.
 */
module SessionIntel {
  import opened JsString
  import opened Json
  import opened Types
  import opened Sanitize
  import opened Common
  import opened Llm

  /** `getEnvBool(name, defaultValue)` */
  function GetEnvBool(env: Env, name: string, defaultValue: bool): (r: bool)
    ensures EnvValue(env, name) == [] ==> r == defaultValue
    ensures EnvValue(env, name) != [] ==>
      (r <==> ToLower(EnvValue(env, name)) in ["1", "true", "yes", "on"])
  {
    var value := ToLower(EnvValue(env, name));
    if value == [] then defaultValue
    else value == "1" || value == "true" || value == "yes" || value == "on"
  }

  /** A flag set to `0`, `false`, `no`, `off` or anything else unrecognised is off. */
  lemma EnvFlagOff(env: Env, name: string, defaultValue: bool)
    requires name in env && env[name] == "off"
    ensures !GetEnvBool(env, name, defaultValue)
  {
    assert ToLower("off")[0] == 'o' && ToLower("off")[1] == 'f';
    assert |ToLower("off")| == 3;
  }

  /** `clampConfidence(value)`; `None` stands for `NaN`. */
  function ClampConfidence(value: Option<real>): (r: real)
    ensures 0.0 <= r <= 1.0
    ensures value.None? ==> r == 0.0
    ensures value.Some? && 0.0 <= value.value <= 1.0 ==> r == value.value
    ensures value.Some? && value.value < 0.0 ==> r == 0.0
    ensures value.Some? && value.value > 1.0 ==> r == 1.0
  {
    match value
    case None => 0.0
    case Some(v) => if v < 0.0 then 0.0 else if v > 1.0 then 1.0 else v
  }

  const AutoCaptured := "Auto-captured "
  const CandidateFrom := " candidate from "
  const SessionSuffix := " session."
  const DurableRationale := "Session output appears durable and reusable."

  /** The kind `heuristicRecommendations` picks from the session type. */
  function HeuristicKind(sessionType: string): (r: string)
    ensures r in ["decision", "learning", "pattern"]
    ensures r == "decision" <==> sessionType == "planning" || sessionType == "review"
    ensures r == "learning" <==> sessionType == "debugging"
  {
    if sessionType == "planning" || sessionType == "review" then "decision"
    else if sessionType == "debugging" then "learning"
    else "pattern"
  }

  /** `heuristicRecommendations(input)`: one candidate of the session's kind at confidence 0.68. */
  function HeuristicRecommendations(input: SessionSummaryRequest): (r: seq<DistillCandidate>)
    ensures |r| == 1 && r[0].kind == JStr(HeuristicKind(input.sessionType)) && r[0].confidence == 0.68
    ensures r[0].title == input.title + " - " + HeuristicKind(input.sessionType)
  {
    var kind := HeuristicKind(input.sessionType);
    [DistillCandidate(JStr(kind), input.title + " - " + kind,
                      AutoCaptured + kind + CandidateFrom + input.sessionType + SessionSuffix,
                      DurableRationale, 0.68)]
  }

  /** The last non-empty line, if any: `lines.filter(Boolean)` then its last element. */
  function LastNonEmpty(lines: seq<string>): (r: Option<string>)
    ensures r.Some? ==> r.value != [] && r.value in lines
    ensures r.None? <==> forall i :: 0 <= i < |lines| ==> lines[i] == []
    ensures r.Some? ==> exists i :: 0 <= i < |lines| && lines[i] == r.value &&
                          forall j :: i < j < |lines| ==> lines[j] == []
  {
    var k := LastNonEmptyIndex(lines, |lines|);
    if k < 0 then None else Some(lines[k])
  }

  /** The index of the last non-empty line before `n`, or -1. */
  function LastNonEmptyIndex(lines: seq<string>, n: nat): (k: int)
    requires n <= |lines|
    ensures -1 <= k < n
    ensures k >= 0 ==> lines[k] != []
    ensures forall j :: k < j < n ==> lines[j] == []
  {
    if n == 0 then -1 else if lines[n - 1] != [] then n - 1 else LastNonEmptyIndex(lines, n - 1)
  }

  /** `a || b`: the first non-empty string. */
  function Or(a: string, b: string): (r: string)
    ensures a != [] ==> r == a
    ensures a == [] ==> r == b
  {
    if a != [] then a else b
  }

  const GoalLabel := "Goal: "
  const WorkTypeLabel := "Work type: "
  const OutcomeLabel := "Outcome: "
  const DefaultedTo := "Defaulted to "
  const WorkflowSuffix := " workflow for this session"
  const InferredRationale := "Inferred from transcript/thread content when explicit decisions were not available."

  /** `heuristicEnrichment(input, transcriptExcerpt, git)` */
  function HeuristicEnrichment(input: SessionSummaryRequest, transcriptExcerpt: string, home: string, env: Env): (r: EnrichmentBase)
    ensures |r.executiveSummary| == 3
    ensures r.executiveSummary[0] == Sanitized(GoalLabel + input.title, home)
    ensures |r.keyDecisions| == 1 && r.keyDecisions[0].confidence == 0.45
    ensures r.digest == Sanitized(SliceTo(Or(input.threadContent, Or(transcriptExcerpt, input.summary)), 600), home)
    ensures r.recommendations == HeuristicRecommendations(input)
    ensures r.summaryEngine == "heuristic-fallback" && r.summaryModel == EnvValue(env, "SESSION_SUMMARY_MODEL")
  {
    var last := LastNonEmpty(Split(transcriptExcerpt, '\n'));
    var lastLine := if last.Some? then last.value else input.summary;
    EnrichmentBase(
      SanitizeLines([GoalLabel + input.title,
                     WorkTypeLabel + input.sessionType + " in " + input.domain + "/" + Or(input.project, "general"),
                     OutcomeLabel + SliceTo(Sanitized(lastLine, home), 140)], home),
      [KeyDecision(DefaultedTo + input.sessionType + WorkflowSuffix,
                   InferredRationale, 0.45)],
      Sanitized(SliceTo(Or(input.threadContent, Or(transcriptExcerpt, input.summary)), 600), home),
      HeuristicRecommendations(input),
      "heuristic-fallback",
      EnvValue(env, "SESSION_SUMMARY_MODEL"))
  }

  // ------------------------------------------------------------ the model's answer
  //
  // Building the enrichment from the answer can throw: `sanitizeText` calls
  // `split` on whatever truthy value it is given, `slice` and `map` need an
  // array, and reading a field of a `null` item fails. A thrown call is `None`.

  /** `(value || 'learning') as DistillKind`: the cast changes nothing, so a truthy value is kept as it is. */
  function KindOf(value: Option<Json>): (r: Json)
    ensures !Truthy(value) ==> r == JStr("learning")
    ensures Truthy(value) ==> Some(r) == value
  {
    if Truthy(value) then value.value else JStr("learning")
  }

  /**
   * `sanitizeText(value || fallback)`: a falsy value gives the sanitised fallback,
   * a string is sanitised, and any other value throws.
   */
  function SanitizedOr(value: Option<Json>, fallback: string, home: string): (r: Option<string>)
    ensures r.None? <==> Truthy(value) && !value.value.JStr?
    ensures !Truthy(value) ==> r == Some(Sanitized(fallback, home))
    ensures Truthy(value) && value.value.JStr? ==> r == Some(Sanitized(value.value.s, home))
  {
    if !Truthy(value) then Some(Sanitized(fallback, home))
    else if value.value.JStr? then Some(Sanitized(value.value.s, home))
    else None
  }

  /** The items of `value || []` for `slice` and `map`: a truthy value that is not an array throws. */
  function ListOf(value: Option<Json>): (r: Option<seq<Json>>)
    ensures r.None? <==> Truthy(value) && !value.value.JArr?
    ensures !Truthy(value) ==> r == Some([])
    ensures IsArray(value) ==> r == Some(value.value.items)
  {
    if !Truthy(value) then Some([]) else if value.value.JArr? then Some(value.value.items) else None
  }

  /** The items of `value` when it is an array. */
  function ItemsOf(value: Option<Json>): (r: seq<Json>)
    ensures !IsArray(value) ==> r == []
  {
    if IsArray(value) then value.value.items else []
  }

  /** A `map` whose callback may throw: every result, or `None` as soon as one threw. */
  function AllOf<T>(xs: seq<Option<T>>): (r: Option<seq<T>>)
    ensures r.Some? <==> forall i :: 0 <= i < |xs| ==> xs[i].Some?
    ensures r.Some? ==> |r.value| == |xs| && forall i :: 0 <= i < |xs| ==> r.value[i] == xs[i].value
  {
    if xs == [] then Some([])
    else if xs[0].None? then None
    else
      var rest := AllOf(xs[1..]);
      assert forall i :: 1 <= i < |xs| ==> xs[1..][i - 1] == xs[i];
      if rest.None? then None else Some([xs[0].value] + rest.value)
  }

  /** `AllOf` over the first `n` items mapped by a callback `f` that may throw. */
  lemma AllOfMeet<A, B>(items: seq<A>, n: nat, f: A -> Option<B>, xs: seq<Option<B>>)
    requires n <= |items| && |xs| == n && forall i :: 0 <= i < n ==> xs[i] == f(items[i])
    ensures AllOf(xs).Some? <==> forall i :: 0 <= i < n ==> f(items[i]).Some?
    ensures AllOf(xs).Some? ==> |AllOf(xs).value| == n && forall i :: 0 <= i < n ==> Some(AllOf(xs).value[i]) == f(items[i])
  {
  }

  /** `Number(value ?? 0.5)`; `None` is `NaN`. */
  function NumberOf(value: Option<Json>, parseNumber: string -> Option<real>): (r: Option<real>)
    ensures value.None? || value == Some(JNull) ==> r == Some(0.5)
    ensures AsNumber(value).Some? ==> r == AsNumber(value)
  {
    match value
    case None => Some(0.5)
    case Some(j) =>
      match j
      case JNull => Some(0.5)
      case JNum(n) => Some(n as real)
      case JFloat(x) => Some(x)
      case JBool(b) => Some(if b then 1.0 else 0.0)
      case JStr(s) => if Trim(s) == [] then Some(0.0) else parseNumber(s)
      case JArr(_) => if Trim(ToJsString(j)) == [] then Some(0.0) else parseNumber(ToJsString(j))
      case JObj(_) => None
  }

  /** One key decision of the answer. */
  function DecisionOf(d: Json, home: string, parseNumber: string -> Option<real>): (r: Option<KeyDecision>)
    ensures d.JNull? ==> r.None?
    ensures r.Some? <==> !d.JNull? && SanitizedOr(Get(Some(d), "decision"), "", home).Some? &&
                         SanitizedOr(Get(Some(d), "rationale"), "", home).Some?
    ensures r.Some? ==> 0.0 <= r.value.confidence <= 1.0
    ensures r.Some? ==> SanitizedOr(Get(Some(d), "decision"), "", home) == Some(r.value.decision)
    ensures r.Some? ==> SanitizedOr(Get(Some(d), "rationale"), "", home) == Some(r.value.rationale)
    ensures r.Some? ==> r.value.confidence == ClampConfidence(NumberOf(Get(Some(d), "confidence"), parseNumber))
  {
    var decision := SanitizedOr(Get(Some(d), "decision"), "", home);
    var rationale := SanitizedOr(Get(Some(d), "rationale"), "", home);
    if d.JNull? || decision.None? || rationale.None? then None
    else Some(KeyDecision(decision.value, rationale.value,
                          ClampConfidence(NumberOf(Get(Some(d), "confidence"), parseNumber))))
  }

  const MaxTitle := 120

  /** One recommendation of the answer. */
  function RecommendationOf(c: Json, home: string, parseNumber: string -> Option<real>): (r: Option<DistillCandidate>)
    ensures c.JNull? ==> r.None?
    ensures r.Some? <==> !c.JNull? && SanitizedOr(Get(Some(c), "title"), "Captured Insight", home).Some? &&
                         SanitizedOr(Get(Some(c), "summary"), "", home).Some? &&
                         SanitizedOr(Get(Some(c), "rationale"), "", home).Some?
    ensures r.Some? ==> 0.0 <= r.value.confidence <= 1.0 && |r.value.title| <= MaxTitle
    ensures r.Some? ==> r.value.kind == KindOf(Get(Some(c), "kind"))
    ensures r.Some? ==>
      r.value.title == SliceTo(SanitizedOr(Get(Some(c), "title"), "Captured Insight", home).value, MaxTitle)
    ensures r.Some? ==> SanitizedOr(Get(Some(c), "summary"), "", home) == Some(r.value.summary)
    ensures r.Some? ==> SanitizedOr(Get(Some(c), "rationale"), "", home) == Some(r.value.rationale)
    ensures r.Some? ==> r.value.confidence == ClampConfidence(NumberOf(Get(Some(c), "confidence"), parseNumber))
  {
    var title := SanitizedOr(Get(Some(c), "title"), "Captured Insight", home);
    var summary := SanitizedOr(Get(Some(c), "summary"), "", home);
    var rationale := SanitizedOr(Get(Some(c), "rationale"), "", home);
    if c.JNull? || title.None? || summary.None? || rationale.None? then None
    else Some(DistillCandidate(KindOf(Get(Some(c), "kind")), SliceTo(title.value, MaxTitle),
                               summary.value, rationale.value,
                               ClampConfidence(NumberOf(Get(Some(c), "confidence"), parseNumber))))
  }

  const MaxSummaryLines := 3
  const MaxDecisions := 5
  const MaxDigest := 1200
  const MaxRecommendations := 6

  /** The summary lines of the answer: at most three. */
  function SummaryLines(parsed: Json): (r: seq<Json>)
    ensures |r| <= MaxSummaryLines
  {
    Take(ItemsOf(Get(Some(parsed), "executive_summary")), MaxSummaryLines)
  }

  /** `sanitizeLines(lines)`: a falsy line becomes empty, and a line that is neither falsy nor a string throws. */
  function SummaryOf(lines: seq<Json>, home: string): (r: Option<seq<string>>)
    ensures r.None? <==> exists i :: 0 <= i < |lines| && Truthy(Some(lines[i])) && !lines[i].JStr?
    ensures r.Some? ==> |r.value| == |lines|
    ensures r.Some? ==>
      forall i :: 0 <= i < |lines| ==> r.value[i] == (if lines[i].JStr? then Sanitized(lines[i].s, home) else [])
  {
    var xs := seq(|lines|, i requires 0 <= i < |lines| => SanitizedOr(Some(lines[i]), "", home));
    SummaryLinesMeet(lines, home, xs);
    AllOf(xs)
  }

  /** What each sanitised line is, read off `SanitizedOr`, and what `AllOf` makes of them. */
  lemma SummaryLinesMeet(lines: seq<Json>, home: string, xs: seq<Option<string>>)
    requires |xs| == |lines| && forall i :: 0 <= i < |lines| ==> xs[i] == SanitizedOr(Some(lines[i]), "", home)
    ensures AllOf(xs).None? <==> exists i :: 0 <= i < |lines| && Truthy(Some(lines[i])) && !lines[i].JStr?
    ensures AllOf(xs).Some? ==> |AllOf(xs).value| == |lines|
    ensures AllOf(xs).Some? ==>
      forall i :: 0 <= i < |lines| ==> AllOf(xs).value[i] == (if lines[i].JStr? then Sanitized(lines[i].s, home) else [])
  {
    assert forall i :: 0 <= i < |lines| ==>
      (xs[i].None? <==> Truthy(Some(lines[i])) && !lines[i].JStr?) &&
      (xs[i].Some? ==> xs[i].value == (if lines[i].JStr? then Sanitized(lines[i].s, home) else []));
  }

  /** The first five key decisions; a `null` item throws. */
  function DecisionsOf(items: seq<Json>, home: string, parseNumber: string -> Option<real>): (r: Option<seq<KeyDecision>>)
    ensures r.Some? <==> forall i :: 0 <= i < Min(|items|, MaxDecisions) ==> DecisionOf(items[i], home, parseNumber).Some?
    ensures r.Some? ==> |r.value| == Min(|items|, MaxDecisions)
    ensures r.Some? ==> forall i :: 0 <= i < |r.value| ==> Some(r.value[i]) == DecisionOf(items[i], home, parseNumber)
    ensures r.Some? ==> forall i :: 0 <= i < |r.value| ==> 0.0 <= r.value[i].confidence <= 1.0
    ensures (exists i :: 0 <= i < Min(|items|, MaxDecisions) && items[i].JNull?) ==> r.None?
  {
    var n := Min(|items|, MaxDecisions);
    var xs := seq(n, i requires 0 <= i < n => DecisionOf(items[i], home, parseNumber));
    AllOfMeet(items, n, d => DecisionOf(d, home, parseNumber), xs);
    AllOf(xs)
  }

  /** The first six recommendations; a `null` item throws. */
  function RecommendationsOf(items: seq<Json>, home: string, parseNumber: string -> Option<real>): (r: Option<seq<DistillCandidate>>)
    ensures r.Some? <==>
      forall i :: 0 <= i < Min(|items|, MaxRecommendations) ==> RecommendationOf(items[i], home, parseNumber).Some?
    ensures r.Some? ==> |r.value| == Min(|items|, MaxRecommendations)
    ensures r.Some? ==> forall i :: 0 <= i < |r.value| ==> Some(r.value[i]) == RecommendationOf(items[i], home, parseNumber)
    ensures r.Some? ==> forall i :: 0 <= i < |r.value| ==>
      0.0 <= r.value[i].confidence <= 1.0 && |r.value[i].title| <= MaxTitle
    ensures (exists i :: 0 <= i < Min(|items|, MaxRecommendations) && items[i].JNull?) ==> r.None?
  {
    var n := Min(|items|, MaxRecommendations);
    var xs := seq(n, i requires 0 <= i < n => RecommendationOf(items[i], home, parseNumber));
    AllOfMeet(items, n, c => RecommendationOf(c, home, parseNumber), xs);
    AllOf(xs)
  }

  /**
   * The enrichment built from a parsed answer: the first 3 summary lines, 5
   * decisions and 6 recommendations, the digest cut to 1200 characters, or
   * `None` when building it throws.
   */
  function FromParsed(parsed: Json, home: string, engine: string, model: string,
                      parseNumber: string -> Option<real>): (r: Option<EnrichmentBase>)
    ensures !IsArray(Get(Some(parsed), "executive_summary")) ==> r.None?
    ensures ListOf(Get(Some(parsed), "key_decisions")).None? ==> r.None?
    ensures ListOf(Get(Some(parsed), "recommendations")).None? ==> r.None?
    ensures SummaryOf(SummaryLines(parsed), home).None? ==> r.None?
    ensures r.Some? ==> r.value.executiveSummary == SummaryOf(SummaryLines(parsed), home).value
    ensures r.Some? ==> |r.value.executiveSummary| <= MaxSummaryLines && |r.value.keyDecisions| <= MaxDecisions &&
                        |r.value.digest| <= MaxDigest && |r.value.recommendations| <= MaxRecommendations
    ensures r.Some? ==> forall i :: 0 <= i < |r.value.keyDecisions| ==> 0.0 <= r.value.keyDecisions[i].confidence <= 1.0
    ensures r.Some? ==> forall i :: 0 <= i < |r.value.recommendations| ==>
      0.0 <= r.value.recommendations[i].confidence <= 1.0 && |r.value.recommendations[i].title| <= MaxTitle
    ensures r.Some? ==> r.value.summaryEngine == engine && r.value.summaryModel == model
    ensures r.Some? <==>
      IsArray(Get(Some(parsed), "executive_summary")) && SummaryOf(SummaryLines(parsed), home).Some? &&
      ListOf(Get(Some(parsed), "key_decisions")).Some? && SanitizedOr(Get(Some(parsed), "digest"), "", home).Some? &&
      ListOf(Get(Some(parsed), "recommendations")).Some? &&
      DecisionsOf(ListOf(Get(Some(parsed), "key_decisions")).value, home, parseNumber).Some? &&
      RecommendationsOf(ListOf(Get(Some(parsed), "recommendations")).value, home, parseNumber).Some?
    ensures r.Some? ==>
      r.value.keyDecisions == DecisionsOf(ListOf(Get(Some(parsed), "key_decisions")).value, home, parseNumber).value &&
      r.value.digest == SliceTo(SanitizedOr(Get(Some(parsed), "digest"), "", home).value, MaxDigest) &&
      r.value.recommendations ==
        RecommendationsOf(ListOf(Get(Some(parsed), "recommendations")).value, home, parseNumber).value
  {
    var summary := SummaryOf(SummaryLines(parsed), home);
    var decisionItems := ListOf(Get(Some(parsed), "key_decisions"));
    var digest := SanitizedOr(Get(Some(parsed), "digest"), "", home);
    var recommendationItems := ListOf(Get(Some(parsed), "recommendations"));
    if !IsArray(Get(Some(parsed), "executive_summary")) || summary.None? || decisionItems.None? ||
       digest.None? || recommendationItems.None? then None
    else
      var decisions := DecisionsOf(decisionItems.value, home, parseNumber);
      var recommendations := RecommendationsOf(recommendationItems.value, home, parseNumber);
      if decisions.None? || recommendations.None? then None
      else Some(EnrichmentBase(summary.value, decisions.value, SliceTo(digest.value, MaxDigest),
                               recommendations.value, engine, model))
  }

  // ------------------------------------------------------------ distillation

  /** `Number(process.env[name] || fallback)`; `None` is `NaN`. */
  function EnvNumber(env: Env, name: string, fallback: real, parseNumber: string -> Option<real>): (r: Option<real>)
    ensures EnvValue(env, name) == [] ==> r == Some(fallback)
  {
    if EnvValue(env, name) == [] then Some(fallback) else parseNumber(env[name])
  }

  /** The count `slice(0, n)` uses: `NaN` is 0 and fractions are truncated toward zero. */
  function SliceCount(n: Option<real>): (r: int)
    ensures n.Some? && n.value >= 0.0 ==> 0 <= r && r as real <= n.value < r as real + 1.0
    ensures n.Some? && n.value < 0.0 ==> r <= 0 && n.value <= r as real < n.value + 1.0
    ensures n.None? ==> r == 0
  {
    match n
    case None => 0
    case Some(x) => if x >= 0.0 then x.Floor else -((-x).Floor)
  }

  /** `recommendations.filter((r) => r.confidence >= threshold)`; a `NaN` threshold keeps none. */
  function Confident(recommendations: seq<DistillCandidate>, threshold: Option<real>): (r: seq<DistillCandidate>)
    ensures |r| <= |recommendations|
    ensures forall c :: c in r ==> c in recommendations && threshold.Some? && c.confidence >= threshold.value
    ensures threshold.Some? ==> forall c :: c in recommendations && c.confidence >= threshold.value ==> c in r
  {
    if recommendations == [] then []
    else
      var rest := Confident(recommendations[1..], threshold);
      var c := recommendations[0];
      assert forall x :: x in recommendations[1..] ==> x in recommendations;
      if threshold.Some? && c.confidence >= threshold.value then [c] + rest else rest
  }

  /** The candidates considered for notes: the confident ones, then the first `maxNotes`. */
  function Chosen(recommendations: seq<DistillCandidate>, threshold: Option<real>, maxNotes: int): (r: seq<DistillCandidate>)
    ensures maxNotes >= 0 ==> |r| <= maxNotes
    ensures maxNotes >= 0 ==>
      r == Confident(recommendations, threshold)[..Min(maxNotes, |Confident(recommendations, threshold)|)]
    ensures maxNotes < 0 ==>
      r == Confident(recommendations, threshold)[..Max(|Confident(recommendations, threshold)| + maxNotes, 0)]
    ensures forall c :: c in r ==> c in recommendations && threshold.Some? && c.confidence >= threshold.value
  {
    var confident := Confident(recommendations, threshold);
    var n := if maxNotes >= 0 then Min(maxNotes, |confident|) else Max(|confident| + maxNotes, 0);
    assert forall c :: c in confident[..n] ==> c in confident;
    confident[..n]
  }

  /** The folder under `Knowledge` a kind is written to; unknown kinds go to `learnings`. */
  function FolderFor(kind: Json): (r: string)
    ensures r in ["decisions", "patterns", "learnings"]
    ensures r == "decisions" <==> kind == JStr("decision")
    ensures r == "patterns" <==> kind == JStr("pattern")
  {
    if kind == JStr("decision") then "decisions" else if kind == JStr("pattern") then "patterns" else "learnings"
  }

  /** The `Knowledge` folders: folder name to file name to the candidate the file was written for. */
  type Folders = map<string, map<string, DistillCandidate>>

  /** `dedupeCandidate(vaultPath, candidate)`: some `.md` file of the folder includes the title's slug. */
  predicate IsDuplicate(folders: Folders, candidate: DistillCandidate) {
    var folder := FolderFor(candidate.kind);
    folder in folders &&
    exists f :: f in folders[folder] && EndsWith(f, ".md") && Contains(f, Slugify(candidate.title, 60))
  }

  /** The file name `writeKnowledgeNote` uses. */
  function NoteFileName(candidate: DistillCandidate, date: string): (r: string)
    ensures EndsWith(r, ".md") && StartsWith(r, date + "_")
    ensures Contains(r, Slugify(candidate.title, 60))
    ensures Slugify(candidate.title, 60) == [] ==> r == date + "_captured-item.md"
  {
    var slug := Slugify(candidate.title, 60);
    var stem := if slug != [] then slug else "captured-item";
    NoteNameShape(date, stem, slug);
    date + "_" + stem + ".md"
  }

  /** `<date>_<stem>.md` starts with the date, ends in `.md`, and holds the slug when the stem is the slug. */
  lemma NoteNameShape(date: string, stem: string, slug: string)
    requires slug == [] || stem == slug
    ensures var r := date + "_" + stem + ".md";
      EndsWith(r, ".md") && StartsWith(r, date + "_") && Contains(r, slug) &&
      (stem == "captured-item" ==> r == date + "_captured-item.md")
  {
    var r := date + "_" + stem + ".md";
    assert r[..|date| + 1] == date + "_";
    assert r[|r| - 3..] == ".md";
    if slug != [] {
      assert r[|date| + 1..|date| + 1 + |slug|] == slug;
      assert OccursAt(r, slug, |date| + 1);
    } else {
      assert OccursAt(r, slug, 0);
    }
  }

  /** `writeKnowledgeNote`: creates the folder if needed, and writes only if the file is absent. */
  function WriteNote(folders: Folders, candidate: DistillCandidate, date: string): (r: Folders)
    ensures FolderFor(candidate.kind) in r
    ensures NoteFileName(candidate, date) in r[FolderFor(candidate.kind)]
    ensures forall f :: f in folders ==> (f in r && folders[f].Keys <= r[f].Keys &&
                                          forall n :: n in folders[f] ==> r[f][n] == folders[f][n])
    ensures r.Keys == folders.Keys + {FolderFor(candidate.kind)}
    ensures r[FolderFor(candidate.kind)].Keys ==
      (if FolderFor(candidate.kind) in folders then folders[FolderFor(candidate.kind)].Keys else {}) +
      {NoteFileName(candidate, date)}
    ensures forall f :: f in folders && f != FolderFor(candidate.kind) ==> r[f] == folders[f]
  {
    PutIfAbsent(folders, FolderFor(candidate.kind), NoteFileName(candidate, date), candidate)
  }

  /** Adds `name` to `folder`, creating the folder if needed; an existing file is left as it is. */
  function PutIfAbsent<V>(folders: map<string, map<string, V>>, folder: string, name: string, v: V)
    : (r: map<string, map<string, V>>)
    ensures r.Keys == folders.Keys + {folder}
    ensures r[folder].Keys == (if folder in folders then folders[folder].Keys else {}) + {name}
    ensures forall f :: f in folders && f != folder ==> r[f] == folders[f]
    ensures folder in folders ==> forall n :: n in folders[folder] ==> r[folder][n] == folders[folder][n]
  {
    var files := if folder in folders then folders[folder] else map[];
    var written := if name in files then files else files[name := v];
    assert written.Keys == files.Keys + {name};
    folders[folder := written]
  }

  /** Once a candidate's note is written, the same candidate is a duplicate: it is never written twice. */
  lemma WrittenNoteIsDuplicate(folders: Folders, candidate: DistillCandidate, date: string)
    ensures IsDuplicate(WriteNote(folders, candidate, date), candidate)
  {
    var name := NoteFileName(candidate, date);
    assert name in WriteNote(folders, candidate, date)[FolderFor(candidate.kind)];
  }

  /** A kind that is not exactly the string "decision" or "pattern", such as `["decision"]`, goes to `learnings`. */
  lemma WrappedKindIsLearning(c: DistillCandidate)
    requires c.kind == JArr([JStr("decision")])
    ensures FolderFor(c.kind) == "learnings"
  {
  }

  /** One turn of the distillation loop: a duplicate is skipped, anything else is written and counted. */
  function DistillStep(state: (Folders, int), candidate: DistillCandidate, date: string): (r: (Folders, int))
    ensures r.1 == state.1 || r.1 == state.1 + 1
  {
    if IsDuplicate(state.0, candidate) then state else (WriteNote(state.0, candidate, date), state.1 + 1)
  }

  /** The folders and `distillCount` after the distillation loop over `chosen`. */
  function DistillAll(folders: Folders, chosen: seq<DistillCandidate>, date: string): (r: (Folders, int))
    ensures 0 <= r.1 <= |chosen|
    decreases |chosen|
  {
    if chosen == [] then (folders, 0)
    else DistillStep(DistillAll(folders, chosen[..|chosen| - 1], date), chosen[|chosen| - 1], date)
  }

  /** Distillation never changes or removes a file that was already there. */
  lemma {:induction false} DistillNeverOverwrites(folders: Folders, chosen: seq<DistillCandidate>, date: string)
    decreases |chosen|
    ensures var r := DistillAll(folders, chosen, date).0;
      forall f :: f in folders ==> f in r && forall n :: n in folders[f] ==> n in r[f] && r[f][n] == folders[f][n]
  {
    if chosen != [] {
      DistillNeverOverwrites(folders, chosen[..|chosen| - 1], date);
    }
  }

  /** The folder of the candidate's kind holds the candidate's note file. */
  predicate HasNote(folders: Folders, candidate: DistillCandidate, date: string) {
    FolderFor(candidate.kind) in folders && NoteFileName(candidate, date) in folders[FolderFor(candidate.kind)]
  }

  lemma StepKeepsNote(state: (Folders, int), candidate: DistillCandidate, date: string, other: DistillCandidate)
    requires HasNote(state.0, other, date)
    ensures HasNote(DistillStep(state, candidate, date).0, other, date)
  {
  }

  /** Every candidate that was not a duplicate when its turn came has its note file afterwards. */
  lemma {:induction false} DistilledNotesExist(folders: Folders, chosen: seq<DistillCandidate>, date: string, k: nat)
    requires k < |chosen|
    requires !IsDuplicate(DistillAll(folders, chosen[..k], date).0, chosen[k])
    decreases |chosen|
    ensures HasNote(DistillAll(folders, chosen, date).0, chosen[k], date)
  {
    var init := chosen[..|chosen| - 1];
    if k == |chosen| - 1 {
      assert init == chosen[..k];
    } else {
      assert init[..k] == chosen[..k];
      DistilledNotesExist(folders, init, date, k);
      StepKeepsNote(DistillAll(folders, init, date), chosen[|chosen| - 1], date, chosen[k]);
    }
  }

  class KnowledgeVault {
    var folders: Folders

    constructor (folders: Folders)
      ensures this.folders == folders
    {
      this.folders := folders;
    }

    /** The distillation loop of `runSessionIntelligence`. */
    method Distill(chosen: seq<DistillCandidate>, date: string) returns (distillCount: int)
      modifies this
      ensures (folders, distillCount) == DistillAll(old(folders), chosen, date)
    {
      distillCount := 0;
      for i := 0 to |chosen|
        invariant (folders, distillCount) == DistillAll(old(folders), chosen[..i], date)
      {
        assert chosen[..i + 1][..i] == chosen[..i];
        var candidate := chosen[i];
        if IsDuplicate(folders, candidate) {
          continue;
        }
        var folder := FolderFor(candidate.kind);
        var files := if folder in folders then folders[folder] else map[];
        var name := NoteFileName(candidate, date);
        if name !in files {
          files := files[name := candidate];
        }
        folders := folders[folder := files];
        distillCount := distillCount + 1;
      }
      assert chosen[..|chosen|] == chosen;
    }

    /**
     * `runSessionIntelligence(params)` with the transcript excerpt, the summary transport's
     * outcome, `JSON.parse`, `Number` on text and today's date given; `None` when building
     * the enrichment from the answer throws, before any note is written.
     */
    method RunSessionIntelligence(input: SessionSummaryRequest, home: string, env: Env, transcriptExcerpt: string,
                                  transport: Transport, parse: string -> Option<Json>,
                                  parseNumber: string -> Option<real>, date: string)
      returns (enrichment: Option<SessionEnrichment>)
      modifies this
      ensures enrichment.None? <==> EnrichmentOf(input, home, env, transcriptExcerpt, transport, parse, parseNumber).None?
      ensures enrichment.None? ==> folders == old(folders)
      ensures enrichment.Some? ==>
        enrichment.value.base == EnrichmentOf(input, home, env, transcriptExcerpt, transport, parse, parseNumber).value &&
        enrichment.value.enrichmentMode == EnvOr(env, "ENRICHMENT_MODE", "inline")
      ensures enrichment.Some? && !GetEnvBool(env, "AUTO_DISTILL_ENABLED", true) ==>
        enrichment.value.distillCount == 0 && folders == old(folders)
      ensures enrichment.Some? && GetEnvBool(env, "AUTO_DISTILL_ENABLED", true) ==>
        (folders, enrichment.value.distillCount) == DistillAll(old(folders), Chosen(enrichment.value.base.recommendations,
          EnvNumber(env, "AUTO_DISTILL_CONFIDENCE_THRESHOLD", 0.75, parseNumber),
          SliceCount(EnvNumber(env, "AUTO_DISTILL_MAX_NOTES", 3.0, parseNumber))), date)
    {
      var mode := EnvOr(env, "ENRICHMENT_MODE", "inline");
      var enableSummary := GetEnvBool(env, "SESSION_SUMMARY_ENABLED", true);
      var enableDistill := GetEnvBool(env, "AUTO_DISTILL_ENABLED", true);
      var maxNotes := SliceCount(EnvNumber(env, "AUTO_DISTILL_MAX_NOTES", 3.0, parseNumber));
      var threshold := EnvNumber(env, "AUTO_DISTILL_CONFIDENCE_THRESHOLD", 0.75, parseNumber);

      ghost var expected := EnrichmentOf(input, home, env, transcriptExcerpt, transport, parse, parseNumber);
      var base := HeuristicEnrichment(input, transcriptExcerpt, home, env);
      if enableSummary {
        var llm := GenerateLlmSummary(input, env, transport, parse);
        if llm.parsed.Some? {
          var fromAnswer := FromParsed(llm.parsed.value, home, llm.engine, llm.model, parseNumber);
          assert expected == fromAnswer;
          if fromAnswer.None? {
            return None;
          }
          base := fromAnswer.value;
        }
      }
      assert expected == Some(base);

      var distillCount := 0;
      if enableDistill {
        distillCount := Distill(Chosen(base.recommendations, threshold, maxNotes), date);
      }
      enrichment := Some(SessionEnrichment(base, distillCount, mode));
    }
  }

  /**
   * The enrichment base: the heuristic one when summaries are off or there is no
   * well-shaped answer, else the one built from the answer, `None` when that throws.
   */
  function EnrichmentOf(input: SessionSummaryRequest, home: string, env: Env, transcriptExcerpt: string,
                        transport: Transport, parse: string -> Option<Json>,
                        parseNumber: string -> Option<real>): (r: Option<EnrichmentBase>)
    ensures GetEnvBool(env, "SESSION_SUMMARY_ENABLED", true) && transport.Responded? &&
            ParseSummary(transport.text, parse).Some? ==>
      r == FromParsed(ParseSummary(transport.text, parse).value, home, ModeName(GetProviderMode(env)),
                      GetProviderModel(input.provider, env), parseNumber)
    ensures !GetEnvBool(env, "SESSION_SUMMARY_ENABLED", true) || transport.Threw? ==>
      r == Some(HeuristicEnrichment(input, transcriptExcerpt, home, env))
    ensures transport.Responded? && ParseSummary(transport.text, parse).None? ==>
      r == Some(HeuristicEnrichment(input, transcriptExcerpt, home, env))
    ensures r.None? ==> GetEnvBool(env, "SESSION_SUMMARY_ENABLED", true) && transport.Responded?
    ensures r.Some? ==> |r.value.executiveSummary| <= MaxSummaryLines && |r.value.recommendations| <= MaxRecommendations
  {
    var llm := GenerateLlmSummary(input, env, transport, parse);
    if GetEnvBool(env, "SESSION_SUMMARY_ENABLED", true) && llm.parsed.Some? then
      FromParsed(llm.parsed.value, home, llm.engine, llm.model, parseNumber)
    else Some(HeuristicEnrichment(input, transcriptExcerpt, home, env))
  }

  /** At most `maxNotes` notes are counted, and only confident non-duplicate candidates count. */
  lemma DistillCountBounded(folders: Folders, recommendations: seq<DistillCandidate>, threshold: Option<real>,
                            maxNotes: int, date: string)
    requires maxNotes >= 0
    ensures DistillAll(folders, Chosen(recommendations, threshold, maxNotes), date).1 <= maxNotes
  {
  }
}
