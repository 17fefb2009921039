/**
 * Recognising a "learning" in the last assistant message and turning the
 * message into a title and an insight.
 */
module Learning {
  import opened JsString

  const LearningKeywords: seq<string> := [
    "lesson learned", "key takeaway", "important to note", "root cause was",
    "the fix was", "turns out", "gotcha", "pitfall", "best practice",
    "anti-pattern", "mistake was", "should have", "next time", "remember to",
    "discovered that", "realized that"
  ]

  /** `${lastMessage} ${summary || ''}` lower-cased. */
  function Combined(lastMessage: string, summary: string): string {
    ToLower(lastMessage + " " + summary)
  }

  /** `isLearningCapture(lastMessage, summary)`. */
  function IsLearningCapture(lastMessage: string, summary: string): (r: bool)
    ensures r <==> exists k :: 0 <= k < |LearningKeywords| && Contains(Combined(lastMessage, summary), LearningKeywords[k])
  {
    exists k :: 0 <= k < |LearningKeywords| && Contains(Combined(lastMessage, summary), LearningKeywords[k])
  }

  /** A keyword anywhere in the (lower-cased) message is enough, whatever the summary. */
  lemma KeywordInMessageCaptures(lastMessage: string, summary: string, k: nat)
    requires k < |LearningKeywords| && Contains(ToLower(lastMessage), LearningKeywords[k])
    ensures IsLearningCapture(lastMessage, summary)
  {
    ToLowerConcat(lastMessage, " " + summary);
    assert lastMessage + " " + summary == lastMessage + (" " + summary);
    ContainsInPrefix(ToLower(lastMessage), ToLower(" " + summary), LearningKeywords[k]);
  }

  /** A keyword in the summary is enough too. */
  lemma KeywordInSummaryCaptures(lastMessage: string, summary: string, k: nat)
    requires k < |LearningKeywords| && Contains(ToLower(summary), LearningKeywords[k])
    ensures IsLearningCapture(lastMessage, summary)
  {
    ToLowerConcat(lastMessage + " ", summary);
    ContainsInSuffix(ToLower(lastMessage + " "), ToLower(summary), LearningKeywords[k]);
  }

  const DefaultInsight: string := "See session for details."
  const DefaultTitle: string := "Learning Captured"

  datatype LearningNote = LearningNote(title: string, insight: string)

  predicate IsBlank(line: string) { Trim(line) == [] }

  /** The lines that are not blank after trimming, in order. */
  function NonBlankLines(lines: seq<string>): (r: seq<string>)
    ensures |r| <= |lines|
    ensures forall i :: 0 <= i < |r| ==> !IsBlank(r[i])
    ensures (forall i :: 0 <= i < |lines| ==> IsBlank(lines[i])) ==> r == []
    ensures forall x :: x in r <==> x in lines && !IsBlank(x)
    ensures (forall i :: 0 <= i < |lines| ==> !IsBlank(lines[i])) ==> r == lines
  {
    if lines == [] then []
    else if IsBlank(lines[0]) then NonBlankLines(lines[1..])
    else [lines[0]] + NonBlankLines(lines[1..])
  }

  /** Filtering a concatenation filters each part in turn, so the kept lines stay in order. */
  lemma {:induction false} NonBlankLinesConcat(a: seq<string>, b: seq<string>)
    ensures NonBlankLines(a + b) == NonBlankLines(a) + NonBlankLines(b)
  {
    if a == [] {
      assert a + b == b;
    } else {
      assert (a + b)[1..] == a[1..] + b;
      NonBlankLinesConcat(a[1..], b);
    }
  }

  /** The index of the first line starting with '#', or |lines|. */
  function FirstHeading(lines: seq<string>): (h: nat)
    ensures h <= |lines|
    ensures h < |lines| ==> StartsWith(lines[h], "#")
    ensures forall i :: 0 <= i < h ==> !StartsWith(lines[i], "#")
  {
    if lines == [] then 0
    else if StartsWith(lines[0], "#") then 0
    else 1 + FirstHeading(lines[1..])
  }

  /** `heading.replace(/^#+\s*\/, '')` */
  function StripHeadingMarks(s: string): string {
    if s != [] && s[0] == '#' then TrimStart(DropLeading(s, '#')) else s
  }

  function InsightOf(rest: seq<string>): (r: string)
    ensures r != [] && |r| <= 2000
    ensures Join(rest, "\n") != [] ==> r == Take(Join(rest, "\n"), 2000)
  {
    var joined := Take(Join(rest, "\n"), 2000);
    if joined != [] then joined else DefaultInsight
  }

  /** `extractLearningFromMessage(message)`. */
  function ExtractLearningFromMessage(message: string): (r: LearningNote)
    ensures |r.title| <= 100 && r.insight != [] && |r.insight| <= 2000
    ensures var lines := NonBlankLines(Split(message, '\n'));
            var h := FirstHeading(lines);
            if h < |lines| then
              r.title == Take(StripHeadingMarks(lines[h]), 100) && r.insight == InsightOf(lines[h + 1..])
            else
              r.title == Take(if lines == [] then DefaultTitle else lines[0], 100) &&
              r.insight == InsightOf(if lines == [] then [] else lines[1..])
  {
    var lines := NonBlankLines(Split(message, '\n'));
    var h := FirstHeading(lines);
    if h < |lines| then
      LearningNote(Take(StripHeadingMarks(lines[h]), 100), InsightOf(lines[h + 1..]))
    else
      LearningNote(Take(if |lines| > 0 then lines[0] else DefaultTitle, 100), InsightOf(if |lines| > 0 then lines[1..] else []))
  }

  /** A message with no non-blank line gets the default title and insight. */
  lemma BlankMessageDefaults(message: string)
    requires forall i :: 0 <= i < |Split(message, '\n')| ==> IsBlank(Split(message, '\n')[i])
    ensures ExtractLearningFromMessage(message) == LearningNote(DefaultTitle, DefaultInsight)
  {
    assert NonBlankLines(Split(message, '\n')) == [];
    assert Join([], "\n") == [];
  }
}
