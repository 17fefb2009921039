/**
 * Secret scrubbing applied to every text that leaves the machine or lands
 * in the vault: the home directory becomes '~' and four secret shapes
 * become "[REDACTED]".  The home directory is a parameter.
 */
module Sanitize {
  import opened JsString

  /** The four secret patterns, in the order they are applied. */
  datatype SecretPattern =
    | SkKey        // sk-[A-Za-z0-9_-]{10,}
    | GitHubToken  // ghp_[A-Za-z0-9]{20,}
    | ApiKey       // api[_-]?key\s*[:=]\s*[^\s]+   (case-insensitive)
    | Token        // token\s*[:=]\s*[^\s]+         (case-insensitive)

  const SecretPatterns: seq<SecretPattern> := [SkKey, GitHubToken, ApiKey, Token]

  const Redacted: string := "[REDACTED]"

  datatype CharClass = SkChars | AsciiAlnum | Blank | NonBlank

  predicate IsAsciiAlnum(c: char) { 'a' <= c <= 'z' || 'A' <= c <= 'Z' || '0' <= c <= '9' }

  predicate InClass(c: char, cls: CharClass) {
    match cls
    case SkChars => IsAsciiAlnum(c) || c == '_' || c == '-'
    case AsciiAlnum => IsAsciiAlnum(c)
    case Blank => IsSpace(c)
    case NonBlank => !IsSpace(c)
  }

  /** How many leading characters of `s` are in `cls` (a greedy `cls*`). */
  function LeadingCount(s: string, cls: CharClass): (n: nat)
    ensures n <= |s|
    ensures forall i :: 0 <= i < n ==> InClass(s[i], cls)
    ensures n < |s| ==> !InClass(s[n], cls)
  {
    if s != [] && InClass(s[0], cls) then 1 + LeadingCount(s[1..], cls) else 0
  }

  /** `s` starts with the lower-case word `w`, ignoring ASCII case. */
  predicate StartsWithIgnoringCase(s: string, w: string) {
    |w| <= |s| && ToLower(s[..|w|]) == w
  }

  /** The length of a match of `\s*[:=]\s*[^\s]+` at the start of `t`. */
  function AssignmentLength(t: string): (r: Option<nat>)
    ensures r.Some? ==> 0 < r.value <= |t|
  {
    var w1 := LeadingCount(t, Blank);
    if w1 < |t| && (t[w1] == ':' || t[w1] == '=') then
      var w2 := LeadingCount(t[w1 + 1..], Blank);
      var v := LeadingCount(t[w1 + 1 + w2..], NonBlank);
      if v >= 1 then Some(w1 + 1 + w2 + v) else None
    else None
  }

  /** The length of the match of `p` that starts at the beginning of `s`, if any. */
  function MatchLength(p: SecretPattern, s: string): (r: Option<nat>)
    ensures r.Some? ==> 0 < r.value <= |s|
  {
    match p
    case SkKey =>
      if StartsWith(s, "sk-") && LeadingCount(s[3..], SkChars) >= 10
      then Some(3 + LeadingCount(s[3..], SkChars)) else None
    case GitHubToken =>
      if StartsWith(s, "ghp_") && LeadingCount(s[4..], AsciiAlnum) >= 20
      then Some(4 + LeadingCount(s[4..], AsciiAlnum)) else None
    case ApiKey =>
      if StartsWithIgnoringCase(s, "api") then
        var j := if |s| > 3 && (s[3] == '_' || s[3] == '-') then 4 else 3;
        if StartsWithIgnoringCase(s[j..], "key") then
          match AssignmentLength(s[j + 3..])
          case Some(n) => Some(j + 3 + n)
          case None => None
        else None
      else None
    case Token =>
      if StartsWithIgnoringCase(s, "token") then
        match AssignmentLength(s[5..])
        case Some(n) => Some(5 + n)
        case None => None
      else None
  }

  /** `s.replace(p, '[REDACTED]')` with the global flag: leftmost matches, left to right. */
  function RedactAll(p: SecretPattern, s: string): (r: string)
    decreases |s|
  {
    if s == [] then []
    else match MatchLength(p, s)
      case Some(n) => Redacted + RedactAll(p, s[n..])
      case None => [s[0]] + RedactAll(p, s[1..])
  }

  /** No match of `p` starts anywhere in `s`. */
  predicate Clean(p: SecretPattern, s: string) {
    forall i :: 0 <= i < |s| ==> MatchLength(p, s[i..]).None?
  }

  /** Text without any match is left as it is. */
  lemma {:induction false} RedactAllClean(p: SecretPattern, s: string)
    requires Clean(p, s)
    ensures RedactAll(p, s) == s
    decreases |s|
  {
    if s != [] {
      assert s[0..] == s;
      assert Clean(p, s[1..]) by {
        forall i | 0 <= i < |s[1..]| ensures MatchLength(p, s[1..][i..]).None? {
          assert s[1..][i..] == s[i + 1..];
        }
      }
      RedactAllClean(p, s[1..]);
    }
  }

  /** `out.split(home).join('~')`. */
  function ReplaceHome(s: string, home: string): string {
    Join(JsSplit(s, home), "~")
  }

  /** Every occurrence of the home path is replaced: the text is the pieces between occurrences, joined by '~'. */
  lemma ReplaceHomePieces(s: string, home: string)
    requires home != []
    ensures ReplaceHome(s, home) == Join(SplitOn(s, home), "~")
    ensures Join(SplitOn(s, home), home) == s
    ensures forall k :: 0 <= k < |SplitOn(s, home)| ==> !Contains(SplitOn(s, home)[k], home)
  {
    SplitJoinRoundTrip(s, home);
    SplitOnPiecesFree(s, home);
  }

  /** Applies the patterns in order. */
  function RedactPatterns(s: string, patterns: seq<SecretPattern>): string
    decreases |patterns|
  {
    if patterns == [] then s else RedactPatterns(RedactAll(patterns[0], s), patterns[1..])
  }

  /** What `sanitizeText(input)` returns. */
  function Sanitized(input: string, home: string): string {
    if input == [] then [] else RedactPatterns(ReplaceHome(input, home), SecretPatterns)
  }

  /** `sanitizeText(input)`: home first, then each pattern in a loop. */
  method SanitizeText(input: string, home: string) returns (out: string)
    ensures out == Sanitized(input, home)
    ensures input == [] ==> out == []
  {
    if input == [] {
      return [];
    }
    out := ReplaceHome(input, home);
    for i := 0 to |SecretPatterns|
      invariant RedactPatterns(out, SecretPatterns[i..]) == Sanitized(input, home)
    {
      assert SecretPatterns[i..][1..] == SecretPatterns[i + 1..];
      out := RedactAll(SecretPatterns[i], out);
    }
  }

  lemma {:induction false} RedactPatternsClean(s: string, patterns: seq<SecretPattern>)
    requires forall k :: 0 <= k < |patterns| ==> Clean(patterns[k], s)
    ensures RedactPatterns(s, patterns) == s
    decreases |patterns|
  {
    if patterns != [] {
      RedactAllClean(patterns[0], s);
      assert forall k :: 0 <= k < |patterns[1..]| ==> patterns[1..][k] == patterns[k + 1];
      RedactPatternsClean(s, patterns[1..]);
    }
  }

  /** Text with no home occurrence and no secret comes back unchanged. */
  lemma SanitizeUnchanged(input: string, home: string)
    requires home != [] && !Contains(input, home)
    requires forall k :: 0 <= k < |SecretPatterns| ==> Clean(SecretPatterns[k], input)
    ensures Sanitized(input, home) == input
  {
    if input != [] {
      assert ReplaceHome(input, home) == input;
      RedactPatternsClean(input, SecretPatterns);
    }
  }

  /** `sanitizeLines(lines)`: element-wise, same length and order. */
  function SanitizeLines(lines: seq<string>, home: string): (r: seq<string>)
    ensures |r| == |lines|
    ensures forall i :: 0 <= i < |lines| ==> r[i] == Sanitized(lines[i], home)
  {
    if lines == [] then [] else [Sanitized(lines[0], home)] + SanitizeLines(lines[1..], home)
  }
}
