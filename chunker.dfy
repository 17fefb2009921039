/**
 * Fitting a transcript into a character budget for the extraction prompt.
 * Three renderings are tried in order (all messages; first 20 and last 40;
 * first 5, every k-th user message of the middle, last 10) and the first that
 * fits is returned; otherwise the head and tail samples are cut to 30% and
 * 60% of the budget.
 */
module Chunker {
  import opened JsString
  import opened Transcript

  /** The cut-off tier is also reported as Sampled: there is no fourth strategy. */
  datatype Strategy = Full | HeadTail | Sampled

  datatype ChunkResult = ChunkResult(strategy: Strategy, text: string)

  const Separator: string := "\n...\n"

  /** `[${role}] ${content}` */
  function FormatMessage(m: Message): (r: string)
    ensures |r| == |m.role| + |m.content| + 3
    ensures StartsWith(r, "[" + m.role + "] ") && EndsWith(r, m.content)
  {
    assert ("[" + m.role + "] " + m.content)[..|m.role| + 3] == "[" + m.role + "] ";
    "[" + m.role + "] " + m.content
  }

  function FormatEach(ms: seq<Message>): (r: seq<string>)
    ensures |r| == |ms|
    ensures forall i :: 0 <= i < |ms| ==> r[i] == FormatMessage(ms[i])
  {
    if ms == [] then [] else [FormatMessage(ms[0])] + FormatEach(ms[1..])
  }

  /** One formatted message per line. */
  function FormatMessages(ms: seq<Message>): string {
    Join(FormatEach(ms), "\n")
  }

  /** Every k-th element, starting with the first (`filter((_, i) => i % k === 0)`). */
  function EveryKth<T>(s: seq<T>, k: nat): (r: seq<T>)
    requires k >= 1
    decreases |s|
    ensures |r| <= |s|
    ensures s != [] ==> r != [] && r[0] == s[0]
  {
    if s == [] then [] else [s[0]] + EveryKth(s[Min(k, |s|)..], k)
  }

  /** The j-th kept element is the element at index j * k, and every such index is kept. */
  lemma {:induction false} EveryKthIndex<T>(s: seq<T>, k: nat, j: nat)
    requires k >= 1
    decreases |s|
    ensures j < |EveryKth(s, k)| <==> j * k < |s|
    ensures j < |EveryKth(s, k)| ==> EveryKth(s, k)[j] == s[j * k]
  {
    if s != [] && j > 0 {
      var rest := s[Min(k, |s|)..];
      assert j * k == (j - 1) * k + k;
      if k <= |s| {
        EveryKthIndex(rest, k, j - 1);
      } else {
        assert (j - 1) * k >= 0;
      }
    }
  }

  lemma {:induction false} EveryFirstIsAll<T>(s: seq<T>)
    ensures EveryKth(s, 1) == s
    decreases |s|
  {
    if s != [] {
      EveryFirstIsAll(s[1..]);
    }
  }

  // ------------------------------------------------------------ the samples

  function HeadSample(ms: seq<Message>): seq<Message> { ms[..Min(5, |ms|)] }

  function TailStart(n: nat): nat { Max(n - 10, 5) }

  function TailSample(ms: seq<Message>): seq<Message> {
    if TailStart(|ms|) <= |ms| then ms[TailStart(|ms|)..] else []
  }

  /** `slice(5, max(n - 10, 5))` */
  function Middle(ms: seq<Message>): seq<Message> {
    if |ms| >= 15 then ms[5..TailStart(|ms|)] else []
  }

  function UserOnly(ms: seq<Message>): (r: seq<Message>)
    ensures |r| <= |ms|
    ensures forall m :: m in r ==> m in ms && m.role == "user"
    ensures forall m :: m in ms && m.role == "user" ==> m in r
  {
    if ms == [] then []
    else if ms[0].role == "user" then [ms[0]] + UserOnly(ms[1..])
    else UserOnly(ms[1..])
  }

  /** The middle pool: the user messages strictly between the head and the tail sample. */
  function Pool(ms: seq<Message>): seq<Message> { UserOnly(Middle(ms)) }

  /** Head sample, middle and tail sample partition the messages, in order. */
  lemma SamplesPartition(ms: seq<Message>)
    ensures HeadSample(ms) + Middle(ms) + TailSample(ms) == ms
    ensures |HeadSample(ms)| <= 5 && |TailSample(ms)| <= 10
  {
    var n := |ms|;
    if n >= 15 {
      assert ms == ms[..5] + ms[5..n - 10] + ms[n - 10..];
    } else if n >= 5 {
      assert ms == ms[..5] + ms[5..];
    }
  }

  // ------------------------------------------------------------- the tiers

  function HeadTailText(ms: seq<Message>): string
    requires |ms| > 20
  {
    FormatMessages(ms[..20]) + Separator + FormatMessages(ms[|ms| - Min(40, |ms| - 20)..])
  }

  function SampledText(ms: seq<Message>, k: nat): string
    requires k >= 1
  {
    FormatMessages(HeadSample(ms)) + Separator + FormatMessages(EveryKth(Pool(ms), k)) + Separator +
    FormatMessages(TailSample(ms))
  }

  predicate SampleFits(ms: seq<Message>, k: nat, maxChars: int)
    requires k >= 1
  {
    |SampledText(ms, k)| <= maxChars
  }

  /** The least k in [from, last] that satisfies `ok`, trying them in increasing order. */
  function FirstFrom(ok: nat -> bool, from: nat, last: nat): (r: Option<nat>)
    decreases last + 1 - from
    ensures r.Some? ==> from <= r.value <= last && ok(r.value)
    ensures r.Some? ==> forall j :: from <= j < r.value ==> !ok(j)
    ensures r.None? ==> forall j :: from <= j <= last ==> !ok(j)
  {
    if from > last then None
    else if ok(from) then Some(from)
    else FirstFrom(ok, from + 1, last)
  }

  /** The search finds exactly the least k that satisfies `ok`. */
  lemma {:induction false} FirstFromIsLeast(ok: nat -> bool, from: nat, last: nat, k: nat)
    requires from <= k <= last && ok(k)
    requires forall j :: from <= j < k ==> !ok(j)
    decreases k - from
    ensures FirstFrom(ok, from, last) == Some(k)
  {
    if from < k {
      FirstFromIsLeast(ok, from + 1, last, k);
    }
  }

  /** The first k in [1, |pool|] whose sampled rendering fits. */
  function FirstFit(ms: seq<Message>, maxChars: int): Option<nat> {
    FirstFrom(k => k >= 1 && SampleFits(ms, k, maxChars), 1, |Pool(ms)|)
  }

  /** `Math.floor(maxChars * 0.3)` and `Math.floor(maxChars * 0.6)`, exactly. */
  function HeadBudget(maxChars: int): int { (maxChars * 3) / 10 }
  function TailBudget(maxChars: int): int { (maxChars * 6) / 10 }

  function FallbackText(ms: seq<Message>, maxChars: int): string {
    SliceTo(
      SliceTo(FormatMessages(HeadSample(ms)), HeadBudget(maxChars)) + Separator +
      SliceTo(FormatMessages(TailSample(ms)), TailBudget(maxChars)),
      maxChars)
  }

  /** What `chunkTranscript(messages, maxChars)` returns. */
  function Chunk(ms: seq<Message>, maxChars: int): ChunkResult {
    if ms == [] then ChunkResult(Full, [])
    else if |FormatMessages(ms)| <= maxChars then ChunkResult(Full, FormatMessages(ms))
    else if |ms| > 20 && |HeadTailText(ms)| <= maxChars then ChunkResult(HeadTail, HeadTailText(ms))
    else match SampledTry(ms, maxChars)
      case Some(text) => ChunkResult(Sampled, text)
      case None => ChunkResult(Sampled, FallbackText(ms, maxChars))
  }

  /** The rendering `chunkTranscript` would return from its sampling loop, if any try fits. */
  function SampledTry(ms: seq<Message>, maxChars: int): (r: Option<string>)
    ensures r.Some? ==> |r.value| <= maxChars
  {
    match FirstFit(ms, maxChars)
    case Some(k) => Some(SampledText(ms, k))
    case None => None
  }

  /** The `while (k <= userMiddle.length)` loop: the sparsest sampling is tried last. */
  method TrySampling(messages: seq<Message>, maxChars: int) returns (found: Option<string>)
    ensures found == SampledTry(messages, maxChars)
  {
    var headSample := HeadSample(messages);
    var tailSample := TailSample(messages);
    var userMiddle := Pool(messages);
    var k := 1;
    while k <= |userMiddle|
      invariant 1 <= k <= |userMiddle| + 1
      invariant FirstFit(messages, maxChars) == FirstFrom(j => j >= 1 && SampleFits(messages, j, maxChars), k, |userMiddle|)
    {
      var sampledMiddle := EveryKth(userMiddle, k);
      var candidate := FormatMessages(headSample) + Separator + FormatMessages(sampledMiddle) + Separator +
                       FormatMessages(tailSample);
      if |candidate| <= maxChars {
        return Some(candidate);
      }
      k := k + 1;
    }
    return None;
  }

  /** `chunkTranscript(messages, maxChars)` */
  method ChunkTranscript(messages: seq<Message>, maxChars: int) returns (result: ChunkResult)
    ensures result == Chunk(messages, maxChars)
    ensures maxChars >= 0 ==> |result.text| <= maxChars
  {
    if maxChars >= 0 {
      ChunkWithinBudget(messages, maxChars);
    }
    if |messages| == 0 {
      return ChunkResult(Full, []);
    }
    var fullText := FormatMessages(messages);
    if |fullText| <= maxChars {
      return ChunkResult(Full, fullText);
    }
    var headCount := Min(20, |messages|);
    var tailCount := Min(40, |messages| - headCount);
    if tailCount > 0 {
      var headTailText := FormatMessages(messages[..headCount]) + Separator +
                          FormatMessages(messages[|messages| - tailCount..]);
      assert headTailText == HeadTailText(messages);
      if |headTailText| <= maxChars {
        return ChunkResult(HeadTail, headTailText);
      }
    }
    var sampled := TrySampling(messages, maxChars);
    if sampled.Some? {
      return ChunkResult(Sampled, sampled.value);
    }
    var fallback := SliceTo(FormatMessages(HeadSample(messages)), HeadBudget(maxChars)) + Separator +
                    SliceTo(FormatMessages(TailSample(messages)), TailBudget(maxChars));
    assert SliceTo(fallback, maxChars) == FallbackText(messages, maxChars);
    result := ChunkResult(Sampled, SliceTo(fallback, maxChars));
  }

  // ------------------------------------------------------------- properties

  /** Whatever tier is chosen, a non-negative budget is respected. */
  lemma ChunkWithinBudget(ms: seq<Message>, maxChars: int)
    requires maxChars >= 0
    ensures |Chunk(ms, maxChars).text| <= maxChars
  {
  }

  /** The full rendering is returned unchanged whenever it fits. */
  lemma ChunkFullWhenFits(ms: seq<Message>, maxChars: int)
    requires |FormatMessages(ms)| <= maxChars
    ensures Chunk(ms, maxChars) == ChunkResult(Full, FormatMessages(ms))
  {
    if ms == [] {
      assert FormatEach(ms) == [];
    }
  }

  /** Head-tail is used only for more than 20 messages whose full rendering does not fit. */
  lemma ChunkHeadTailOnlyWhenLong(ms: seq<Message>, maxChars: int)
    requires Chunk(ms, maxChars).strategy == HeadTail
    ensures |ms| > 20 && |FormatMessages(ms)| > maxChars
    ensures Chunk(ms, maxChars).text ==
      FormatMessages(ms[..20]) + Separator + FormatMessages(ms[|ms| - Min(40, |ms| - 20)..])
  {
  }

  /** With an empty pool, a long transcript that does not fit as full or head-tail falls back to cutting. */
  lemma ChunkFallbackWithEmptyPool(ms: seq<Message>, maxChars: int)
    requires ms != [] && Pool(ms) == [] && |FormatMessages(ms)| > maxChars
    requires |ms| > 20 ==> |HeadTailText(ms)| > maxChars
    ensures Chunk(ms, maxChars) == ChunkResult(Sampled, FallbackText(ms, maxChars))
  {
  }

  /** A sampled result that is not the cut-off is the rendering for the least k that fits. */
  lemma ChunkSampledIsFirstFit(ms: seq<Message>, maxChars: int, k: nat)
    requires 1 <= k <= |Pool(ms)| && SampleFits(ms, k, maxChars)
    requires |FormatMessages(ms)| > maxChars && ms != []
    requires |ms| > 20 ==> |HeadTailText(ms)| > maxChars
    requires forall j :: 1 <= j < k ==> !SampleFits(ms, j, maxChars)
    ensures Chunk(ms, maxChars) == ChunkResult(Sampled, SampledText(ms, k))
  {
    FirstFromIsLeast(k => k >= 1 && SampleFits(ms, k, maxChars), 1, |Pool(ms)|, k);
  }

  /** The first sampling try keeps the whole pool. */
  lemma FirstTryKeepsWholePool(ms: seq<Message>)
    ensures SampledText(ms, 1) ==
      FormatMessages(HeadSample(ms)) + Separator + FormatMessages(Pool(ms)) + Separator + FormatMessages(TailSample(ms))
  {
    EveryFirstIsAll(Pool(ms));
  }
}
