/**
 * Duplicate detection against the vault index: an exact session id, an exact
 * knowledge slug, or a summary whose token-set Jaccard similarity with an
 * indexed summary reaches 0.7.
 */
module Similarity {
  import opened JsString
  import opened VaultIndex

  predicate NoSpace(w: string) { forall i :: 0 <= i < |w| ==> !IsSpace(w[i]) }

  /** The maximal runs of non-space characters of `s`, after the pending word `cur`. */
  function WordsFrom(s: string, cur: string): (r: seq<string>)
    requires NoSpace(cur)
    decreases |s|
    ensures forall w :: w in r ==> w != [] && NoSpace(w)
    ensures forall w :: w in r ==> forall c :: c in w ==> c in s || c in cur
  {
    if s == [] then (if cur == [] then [] else [cur])
    else if IsSpace(s[0]) then (if cur == [] then [] else [cur]) + WordsFrom(s[1..], [])
    else WordsFrom(s[1..], cur + [s[0]])
  }

  /** `s.split(/\s+/).filter((w) => w.length > 0)` */
  function Words(s: string): seq<string> { WordsFrom(s, []) }

  /** `w` is the run of non-space characters of `t` from `i` to `j`, with a space or an end on each side. */
  ghost predicate RunAt(t: string, w: string, i: int, j: int) {
    0 <= i < j <= |t| && t[i..j] == w && NoSpace(w) &&
    (i == 0 || IsSpace(t[i - 1])) && (j == |t| || IsSpace(t[j]))
  }

  /** `w` is a maximal run of non-space characters of `t`. */
  ghost predicate MaxRun(t: string, w: string) {
    exists i, j :: RunAt(t, w, i, j)
  }

  /** A text without spaces is its own only run. */
  lemma RunsOfWord(a: string, w: string)
    requires NoSpace(a)
    ensures MaxRun(a, w) <==> a != [] && w == a
  {
    if MaxRun(a, w) {
      var i, j :| RunAt(a, w, i, j);
      assert i == 0 && j == |a|;
      assert a[..] == a;
    }
    if a != [] && w == a {
      assert a[0..|a|] == a;
      assert RunAt(a, w, 0, |a|);
    }
  }

  /** A run that starts before the space is the whole word before it. */
  lemma RunBeforeSpace(a: string, c: char, b: string, w: string, i: int, j: int)
    requires NoSpace(a) && IsSpace(c)
    requires RunAt(a + [c] + b, w, i, j) && i <= |a|
    ensures a != [] && w == a
  {
    var t, n := a + [c] + b, |a|;
    assert t[n] == c;
    assert j == n && i == 0;
    assert w == t[..n] == a;
  }

  /** A run after the space is a run of the text after it, and the other way round. */
  lemma RunAfterSpace(a: string, c: char, b: string, w: string, i': int, j': int)
    requires IsSpace(c) && 0 <= i'
    ensures RunAt(a + [c] + b, w, i' + |a| + 1, j' + |a| + 1) <==> RunAt(b, w, i', j')
  {
    var t, n := a + [c] + b, |a|;
    var i, j := i' + n + 1, j' + n + 1;
    assert t[n] == c;
    if i' < j' <= |b| {
      assert t[i..j] == b[i'..j'];
      if i' > 0 { assert t[i - 1] == b[i' - 1]; }
      if j' < |b| { assert t[j] == b[j']; }
    }
  }

  /** A space splits the runs of a text into the word before it and the runs after it. */
  lemma RunsAroundSpace(a: string, c: char, b: string, w: string)
    requires NoSpace(a) && IsSpace(c)
    ensures MaxRun(a + [c] + b, w) <==> (a != [] && w == a) || MaxRun(b, w)
  {
    var t, n := a + [c] + b, |a|;
    if MaxRun(t, w) {
      var i, j :| RunAt(t, w, i, j);
      if i <= n {
        RunBeforeSpace(a, c, b, w, i, j);
      } else {
        RunAfterSpace(a, c, b, w, i - n - 1, j - n - 1);
      }
    }
    if a != [] && w == a {
      assert t[n] == c && t[0..n] == a;
      assert RunAt(t, w, 0, n);
    }
    if MaxRun(b, w) {
      var i', j' :| RunAt(b, w, i', j');
      RunAfterSpace(a, c, b, w, i', j');
    }
  }

  /** The words after the pending word `cur` are the maximal runs of `cur + s`. */
  lemma {:induction false} WordsFromAreRuns(s: string, cur: string, w: string)
    requires NoSpace(cur)
    ensures w in WordsFrom(s, cur) <==> MaxRun(cur + s, w)
    decreases |s|
  {
    if s == [] {
      assert cur + s == cur;
      RunsOfWord(cur, w);
    } else if IsSpace(s[0]) {
      WordsFromAreRuns(s[1..], [], w);
      assert [] + s[1..] == s[1..];
      assert cur + s == cur + [s[0]] + s[1..];
      RunsAroundSpace(cur, s[0], s[1..], w);
    } else {
      WordsFromAreRuns(s[1..], cur + [s[0]], w);
      assert cur + [s[0]] + s[1..] == cur + s;
    }
  }

  /** The `tokenize` closure of `jaccardSimilarity`. */
  function Tokens(s: string): (r: set<string>)
    ensures forall w :: w in r ==> w != [] && NoSpace(w)
    ensures forall w :: w in r ==> forall c :: c in w ==> !('A' <= c <= 'Z')
  {
    var lower := ToLower(s);
    assert forall c :: c in lower ==> !('A' <= c <= 'Z');
    set w | w in Words(lower)
  }

  /** The tokens are exactly the maximal runs of non-space characters of the lower-cased text. */
  lemma TokensAreRuns(s: string, w: string)
    ensures w in Tokens(s) <==> MaxRun(ToLower(s), w)
  {
    WordsFromAreRuns(ToLower(s), [], w);
    assert [] + ToLower(s) == ToLower(s);
  }

  /** The similarity as an exact rational. */
  function Jaccard(a: string, b: string): (r: real)
    ensures 0.0 <= r <= 1.0
  {
    var setA := Tokens(a);
    var setB := Tokens(b);
    if |setA| == 0 && |setB| == 0 then 1.0
    else if |setA| == 0 || |setB| == 0 then 0.0
    else
      SubsetCard(setA * setB, setA + setB);
      RatioInUnit(|setA * setB|, |setA + setB|);
      (|setA * setB| as real) / (|setA + setB| as real)
  }

  /** A count over a larger positive count is a fraction in [0, 1]. */
  lemma RatioInUnit(x: nat, y: nat)
    requires 0 < y && x <= y
    ensures 0.0 <= x as real / y as real <= 1.0
  {
    DivComparedTo(x as real, y as real, 0.0);
    DivComparedTo(x as real, y as real, 1.0);
  }

  lemma {:induction false} SubsetCard(x: set<string>, y: set<string>)
    requires x <= y
    decreases |y|
    ensures |x| <= |y|
  {
    if x != {} {
      var e :| e in x;
      SubsetCard(x - {e}, y - {e});
    }
  }

  lemma CountStep(setA: set<string>, setB: set<string>, rest: set<string>, token: string)
    requires rest <= setA && token in rest
    ensures |(setA - (rest - {token})) * setB| ==
      |(setA - rest) * setB| + (if token in setB then 1 else 0)
  {
    var before := (setA - rest) * setB;
    if token in setB {
      assert (setA - (rest - {token})) * setB == before + {token};
      assert token !in before;
    } else {
      assert (setA - (rest - {token})) * setB == before;
    }
  }

  /** Inclusion-exclusion for two finite sets. */
  lemma {:induction false} UnionCard(x: set<string>, y: set<string>)
    decreases |x|
    ensures |x + y| == |x| + |y| - |x * y|
  {
    if x != {} {
      var e :| e in x;
      UnionCard(x - {e}, y);
      if e in y {
        assert x + y == (x - {e}) + y;
        assert x * y == (x - {e}) * y + {e};
      } else {
        assert x + y == ((x - {e}) + y) + {e};
        assert x * y == (x - {e}) * y;
      }
    }
  }

  /** `jaccardSimilarity(a, b)`: the `intersection` counter loop and `|A| + |B| - intersection`. */
  method JaccardSimilarity(a: string, b: string) returns (r: real)
    ensures r == Jaccard(a, b)
  {
    var setA := Tokens(a);
    var setB := Tokens(b);
    if |setA| == 0 && |setB| == 0 {
      return 1.0;
    }
    if |setA| == 0 || |setB| == 0 {
      return 0.0;
    }
    var intersection := 0;
    var rest := setA;
    while rest != {}
      invariant rest <= setA
      invariant intersection == |(setA - rest) * setB|
      decreases |rest|
    {
      var token :| token in rest;
      CountStep(setA, setB, rest, token);
      if token in setB {
        intersection := intersection + 1;
      }
      rest := rest - {token};
    }
    assert setA - rest == setA;
    var union := |setA| + |setB| - intersection;
    UnionCard(setA, setB);
    r := if union == 0 then 0.0 else intersection as real / union as real;
  }

  /** `>= SIMILARITY_THRESHOLD` on integers: 10·|A∩B| ≥ 7·|A∪B|, with the two empty-set cases. */
  predicate SimilarEnough(a: string, b: string) {
    var setA := Tokens(a);
    var setB := Tokens(b);
    if |setA| == 0 && |setB| == 0 then true
    else if |setA| == 0 || |setB| == 0 then false
    else 10 * |setA * setB| >= 7 * |setA + setB|
  }

  /** The integer test is exactly the 0.7 threshold on the similarity. */
  lemma SimilarEnoughIff(a: string, b: string)
    ensures SimilarEnough(a, b) <==> Jaccard(a, b) >= 0.7
  {
    var setA := Tokens(a);
    var setB := Tokens(b);
    if |setA| == 0 && |setB| == 0 {
      assert SimilarEnough(a, b) && Jaccard(a, b) == 1.0;
    } else if |setA| == 0 || |setB| == 0 {
      assert !SimilarEnough(a, b) && Jaccard(a, b) == 0.0;
    } else {
      var x := |setA * setB| as real;
      var y := |setA + setB| as real;
      assert y > 0.0;
      assert Jaccard(a, b) == x / y;
      DivComparedTo(x, y, 0.7);
      assert SimilarEnough(a, b) <==> 10 * |setA * setB| >= 7 * |setA + setB|;
      assert (10 * |setA * setB| >= 7 * |setA + setB|) <==> x >= 0.7 * y;
    }
  }

  /** Dividing by a positive `y` keeps comparisons: x / y is at least (at most) t exactly when x is at least (at most) t·y. */
  lemma DivComparedTo(x: real, y: real, t: real)
    requires y > 0.0
    ensures x / y >= t <==> x >= t * y
    ensures x / y <= t <==> x <= t * y
  {
    var q := x / y;
    assert x == q * y;
    assert x - t * y == (q - t) * y;
    if q > t {
      assert (q - t) * y > 0.0;
    } else if q < t {
      assert (t - q) * y > 0.0;
    }
  }

  lemma JaccardSymmetric(a: string, b: string)
    ensures Jaccard(a, b) == Jaccard(b, a)
  {
    assert Tokens(a) * Tokens(b) == Tokens(b) * Tokens(a);
    assert Tokens(a) + Tokens(b) == Tokens(b) + Tokens(a);
  }

  /** Two texts without tokens are identical (1); exactly one without tokens shares nothing (0). */
  lemma JaccardEmptyCases(a: string, b: string)
    ensures Tokens(a) == {} && Tokens(b) == {} ==> Jaccard(a, b) == 1.0
    ensures (Tokens(a) == {}) != (Tokens(b) == {}) ==> Jaccard(a, b) == 0.0
  {
  }

  /** Equal non-empty token sets are identical. */
  lemma JaccardSameTokens(a: string, b: string)
    requires Tokens(a) == Tokens(b) != {}
    ensures Jaccard(a, b) == 1.0
  {
    assert Tokens(a) * Tokens(b) == Tokens(a) + Tokens(b);
  }

  /** Whitespace and upper/lower case never separate texts with the same words. */
  lemma TokensIgnoreCase(a: string, b: string)
    requires ToLower(a) == ToLower(b)
    ensures Jaccard(a, b) == 1.0
  {
    if Tokens(a) != {} {
      JaccardSameTokens(a, b);
    }
  }

  /** `isDuplicateSession(sessionId, index)` */
  function IsDuplicateSession(sessionId: string, index: VaultIndex): (r: bool)
  {
    sessionId in index.sessionIds
  }

  /** Every session note that carries an id is recognised as a duplicate once indexed. */
  lemma IndexedSessionIsDuplicate(notes: seq<Note>, i: nat)
    requires i < |notes| && Field(notes[i].1, "session_id") != []
    ensures IsDuplicateSession(Field(notes[i].1, "session_id"), SessionsFold(EmptyIndex, notes))
  {
    SessionIdsExact(EmptyIndex, notes, Field(notes[i].1, "session_id"));
  }

  /** What `isDuplicateKnowledge(slug, summary, index)` decides. */
  predicate DuplicateKnowledge(slug: string, summary: string, index: VaultIndex) {
    slug in index.knowledgeSlugs ||
    exists k :: k in index.summaries && SimilarEnough(summary, index.summaries[k])
  }

  /** `isDuplicateKnowledge(slug, summary, index)`: exact slug, then the summaries loop with early return. */
  method IsDuplicateKnowledge(slug: string, summary: string, index: VaultIndex) returns (r: bool)
    ensures r <==> DuplicateKnowledge(slug, summary, index)
    ensures slug in index.knowledgeSlugs ==> r
  {
    if slug in index.knowledgeSlugs {
      return true;
    }
    var keys := index.summaries.Keys;
    while keys != {}
      invariant keys <= index.summaries.Keys
      invariant forall k :: k in index.summaries.Keys - keys ==> !SimilarEnough(summary, index.summaries[k])
      decreases |keys|
    {
      var key :| key in keys;
      var similarity := JaccardSimilarity(summary, index.summaries[key]);
      SimilarEnoughIff(summary, index.summaries[key]);
      if similarity >= 0.7 {
        return true;
      }
      keys := keys - {key};
    }
    assert index.summaries.Keys - keys == index.summaries.Keys;
    return false;
  }
}
