/**
 * Shared helpers of the hooks: slugs, trivial titles, session-type and
 * domain/project detection, the `key: "value"` line matcher used by every
 * front-matter reader, number and date coercion.
 *
 * The home directory and the working directory are parameters.
 */
module Common {
  import opened JsString

  // ---------------------------------------------------------------- slugify

  /** Replaces every maximal run of characters outside [a-z0-9] by one '-'. */
  function Dashify(s: string): (r: string)
    decreases |s|
    ensures (r == []) == (s == [])
    ensures r != [] ==> (r[0] == '-' <==> !IsLowerAlnum(s[0]))
  {
    if s == [] then []
    else if IsLowerAlnum(s[0]) then [s[0]] + Dashify(s[1..])
    else ['-'] + Dashify(SkipSeparators(s[1..]))
  }

  /** Dashify leaves only [a-z0-9] and single '-' characters. */
  lemma {:induction false} DashifyShape(s: string)
    ensures forall i :: 0 <= i < |Dashify(s)| ==> IsLowerAlnum(Dashify(s)[i]) || Dashify(s)[i] == '-'
    ensures forall i :: 0 <= i < |Dashify(s)| - 1 ==> !(Dashify(s)[i] == '-' && Dashify(s)[i + 1] == '-')
    decreases |s|
  {
    if s != [] {
      if IsLowerAlnum(s[0]) {
        DashifyShape(s[1..]);
      } else {
        DashifyShape(SkipSeparators(s[1..]));
      }
    }
  }

  /** Drops the leading characters outside [a-z0-9]. */
  function SkipSeparators(s: string): (r: string)
    ensures |r| <= |s| && r == s[|s| - |r|..]
    ensures r == [] || IsLowerAlnum(r[0])
  {
    if s != [] && !IsLowerAlnum(s[0]) then
      var r := SkipSeparators(s[1..]);
      assert s[1..][|s| - 1 - |r|..] == s[|s| - |r|..];
      r
    else s
  }

  /** Removes one leading and one trailing '-'. */
  function StripEdgeDashes(s: string): (r: string)
    ensures |r| <= |s|
  {
    var a := if s != [] && s[0] == '-' then s[1..] else s;
    if a != [] && a[|a| - 1] == '-' then a[..|a| - 1] else a
  }

  predicate IsSlugChar(c: char) { IsLowerAlnum(c) || c == '-' }

  /** The shape every slug has. */
  predicate IsSlugShaped(s: string) {
    (forall i :: 0 <= i < |s| ==> IsSlugChar(s[i])) &&
    (s == [] || s[0] != '-') &&
    (forall i :: 0 <= i < |s| - 1 ==> !(s[i] == '-' && s[i + 1] == '-'))
  }

  /** `slugify(text, max)`. */
  function Slugify(text: string, max: nat): (r: string)
    ensures IsSlugShaped(r)
    ensures |r| <= max
  {
    var d := Dashify(ToLower(text));
    DashifyShape(ToLower(text));
    var s := StripEdgeDashes(d);
    assert s == [] || s[0] != '-' by {
      if d != [] && d[0] == '-' && |d| > 1 {
        assert d[1] != '-';
      }
    }
    assert forall i :: 0 <= i < |s| ==> IsSlugChar(s[i]) by {
      var a := if d != [] && d[0] == '-' then d[1..] else d;
      assert forall i :: 0 <= i < |a| ==> IsSlugChar(a[i]);
    }
    assert forall i :: 0 <= i < |s| - 1 ==> !(s[i] == '-' && s[i + 1] == '-') by {
      var a := if d != [] && d[0] == '-' then d[1..] else d;
      assert forall i :: 0 <= i < |a| - 1 ==> !(a[i] == '-' && a[i + 1] == '-');
    }
    Take(s, max)
  }

  /** A slug body: slug characters, no "--", starting with [a-z0-9] and not ending with '-'. */
  predicate IsSlugBody(s: string) {
    (forall i :: 0 <= i < |s| ==> IsSlugChar(s[i])) &&
    (forall i :: 0 <= i < |s| - 1 ==> !(s[i] == '-' && s[i + 1] == '-')) &&
    (s == [] || (IsLowerAlnum(s[0]) && s[|s| - 1] != '-'))
  }

  /** A slug body stays one from any position holding [a-z0-9] on. */
  lemma SlugBodyFrom(s: string, k: nat)
    requires IsSlugBody(s) && k < |s| && IsLowerAlnum(s[k])
    ensures IsSlugBody(s[k..])
  {
    assert forall i :: 0 <= i < |s| - k ==> s[k..][i] == s[k + i];
  }

  /** A leading [a-z0-9] character is kept as it is. */
  lemma DashifyKeeps(c: char, t: string)
    requires IsLowerAlnum(c)
    ensures Dashify([c] + t) == [c] + Dashify(t)
  {
    assert ([c] + t)[1..] == t;
  }

  /** A single '-' before [a-z0-9] (or the end) stays a single '-'. */
  lemma DashifyDash(u: string)
    requires u == [] || IsLowerAlnum(u[0])
    ensures Dashify(['-'] + u) == ['-'] + Dashify(u)
  {
    assert (['-'] + u)[1..] == u;
    assert SkipSeparators(u) == u;
  }

  /** In a slug body, a '-' in second place is followed by [a-z0-9]. */
  lemma DashIsFollowed(s: string)
    requires IsSlugBody(s) && |s| > 1 && s[1] == '-'
    ensures |s| > 2 && IsLowerAlnum(s[2])
  {
    assert s[|s| - 1] != '-';
    assert !(s[1] == '-' && s[2] == '-');
  }

  lemma {:induction false} DashifyOfSlug(s: string)
    requires IsSlugBody(s)
    ensures Dashify(s) == s
    decreases |s|
  {
    if s != [] {
      var t := s[1..];
      assert s == [s[0]] + t;
      DashifyKeeps(s[0], t);
      if t != [] && IsLowerAlnum(t[0]) {
        SlugBodyFrom(s, 1);
        DashifyOfSlug(t);
      } else if t != [] {
        DashIsFollowed(s);
        SlugBodyFrom(s, 2);
        var u := s[2..];
        assert t == ['-'] + u;
        DashifyDash(u);
        DashifyOfSlug(u);
      }
    }
  }

  /** Skipping separators in front of text that ends in [a-z0-9] never reaches what follows it. */
  lemma {:induction false} SkipBeforeLetter(s: string, u: string)
    requires s != [] && IsLowerAlnum(s[|s| - 1])
    ensures SkipSeparators(s + u) == SkipSeparators(s) + u
    ensures SkipSeparators(s) != []
    decreases |s|
  {
    var su := s + u;
    AppendHeadTail(s, u);
    if IsLowerAlnum(s[0]) {
      SkipAtAlnum(s);
      SkipAtAlnum(su);
    } else {
      SkipStep(s);
      SkipStep(su);
      SkipBeforeLetter(s[1..], u);
    }
  }

  lemma AppendHeadTail<T>(s: seq<T>, u: seq<T>)
    requires s != []
    ensures s + u != [] && (s + u)[0] == s[0] && (s + u)[1..] == s[1..] + u
  {
  }

  /** Text starting with [a-z0-9] has nothing to skip. */
  lemma SkipAtAlnum(s: string)
    requires s != [] && IsLowerAlnum(s[0])
    ensures SkipSeparators(s) == s
  {
  }

  /** A leading character outside [a-z0-9] is skipped. */
  lemma SkipStep(s: string)
    requires s != [] && !IsLowerAlnum(s[0])
    ensures SkipSeparators(s) == SkipSeparators(s[1..])
  {
  }

  /** Text ending in [a-z0-9] is dashified on its own, whatever follows it. */
  lemma {:induction false} DashifySplit(s: string, u: string)
    requires s == [] || IsLowerAlnum(s[|s| - 1])
    ensures Dashify(s + u) == Dashify(s) + Dashify(u)
    decreases |s|, 1
  {
    if s == [] {
      assert s + u == u;
    } else if IsLowerAlnum(s[0]) {
      SplitAtLetter(s, u);
    } else {
      SplitAtSeparator(s, u);
    }
  }

  /** `DashifySplit` when the text starts with [a-z0-9]. */
  lemma {:induction false} SplitAtLetter(s: string, u: string)
    requires s != [] && IsLowerAlnum(s[|s| - 1]) && IsLowerAlnum(s[0])
    ensures Dashify(s + u) == Dashify(s) + Dashify(u)
    decreases |s|, 0
  {
    var t := s[1..];
    HeadSplit(s, u);
    DashifyKeeps(s[0], t + u);
    DashifyKeeps(s[0], t);
    DashifySplit(t, u);
    ConsAssoc(s[0], Dashify(t), Dashify(u));
  }

  lemma HeadSplit<T>(s: seq<T>, u: seq<T>)
    requires s != []
    ensures s == [s[0]] + s[1..]
    ensures s + u == [s[0]] + (s[1..] + u)
  {
  }

  lemma ConsAssoc<T>(x: T, t: seq<T>, w: seq<T>)
    ensures [x] + (t + w) == ([x] + t) + w
  {
  }

  /** `DashifySplit` when the text starts outside [a-z0-9]. */
  lemma {:induction false} SplitAtSeparator(s: string, u: string)
    requires s != [] && IsLowerAlnum(s[|s| - 1]) && !IsLowerAlnum(s[0])
    ensures Dashify(s + u) == Dashify(s) + Dashify(u)
    decreases |s|, 0
  {
    var t := s[1..];
    AppendHeadTail(s, u);
    DashifySepStep(s);
    DashifySepStep(s + u);
    SkipBeforeLetter(t, u);
    var r := SkipSeparators(t);
    assert r == t[|t| - |r|..];
    assert r[|r| - 1] == s[|s| - 1];
    DashifySplit(r, u);
    ConsAssoc('-', Dashify(r), Dashify(u));
  }

  /** A leading character outside [a-z0-9] becomes a '-', and the separators after it are dropped. */
  lemma DashifySepStep(s: string)
    requires s != [] && !IsLowerAlnum(s[0])
    ensures Dashify(s) == ['-'] + Dashify(SkipSeparators(s[1..]))
  {
  }

  /** A run of characters outside [a-z0-9] in front of [a-z0-9] (or the end) is skipped whole. */
  lemma {:induction false} SkipRun(run: string, u: string)
    requires forall i :: 0 <= i < |run| ==> !IsLowerAlnum(run[i])
    requires u == [] || IsLowerAlnum(u[0])
    ensures SkipSeparators(run + u) == u
    decreases |run|
  {
    if run == [] {
      assert run + u == u;
    } else {
      assert (run + u)[1..] == run[1..] + u;
      SkipRun(run[1..], u);
    }
  }

  /** A text whose dashified lower case has no dash at either end and fits gives that as its slug. */
  lemma SlugifyOfDashed(text: string, max: nat, d: string)
    requires Dashify(ToLower(text)) == d && d != [] && d[0] != '-' && d[|d| - 1] != '-'
    requires |d| <= max
    ensures Slugify(text, max) == d
  {
    assert StripEdgeDashes(d) == d;
  }

  /** A run of characters outside [a-z0-9] before a slug body becomes one '-'. */
  lemma DashifyRunThenBody(lr: string, b: string)
    requires IsSlugBody(b) && b != []
    requires lr != [] && forall i :: 0 <= i < |lr| ==> !IsLowerAlnum(lr[i])
    ensures Dashify(lr + b) == ['-'] + b
  {
    assert (lr + b)[1..] == lr[1..] + b;
    SkipRun(lr[1..], b);
    DashifyOfSlug(b);
  }

  /** Dashify turns a run of characters outside [a-z0-9] between two slug bodies into one '-'. */
  lemma DashifyCollapsesRun(a: string, lr: string, b: string)
    requires IsSlugBody(a) && IsSlugBody(b) && b != []
    requires lr != [] && forall i :: 0 <= i < |lr| ==> !IsLowerAlnum(lr[i])
    ensures Dashify(a + lr + b) == a + "-" + b
  {
    SlugBodyEndsAlnum(a);
    AppendAssoc(a, lr, b);
    DashifySplit(a, lr + b);
    DashifyOfSlug(a);
    DashifyRunThenBody(lr, b);
    AppendAssoc(a, "-", b);
  }

  lemma AppendAssoc<T>(x: seq<T>, y: seq<T>, z: seq<T>)
    ensures x + y + z == x + (y + z)
  {
  }

  /** A slug body is empty or ends in [a-z0-9]. */
  lemma SlugBodyEndsAlnum(a: string)
    requires IsSlugBody(a)
    ensures a == [] || IsLowerAlnum(a[|a| - 1])
  {
  }

  /**
   * Two words whose lower case are slug bodies, joined by a run of characters
   * that are not [a-z0-9] once lower-cased, give the lower-cased words joined
   * by one '-' ("Hello World" gives "hello-world").
   */
  lemma SlugifyCollapsesRun(a: string, run: string, b: string, max: nat)
    requires IsSlugWord(a) && IsSlugWord(b)
    requires run != [] && forall i :: 0 <= i < |run| ==> !IsLowerAlnum(LowerChar(run[i]))
    requires |a| + 1 + |b| <= max
    ensures Slugify(a + run + b, max) == ToLower(a) + "-" + ToLower(b)
  {
    var la, lb := ToLower(a), ToLower(b);
    var d := la + "-" + lb;
    DashifyOfLowered(a, run, b);
    DashedEnds(la, lb);
    assert |d| == |a| + 1 + |b|;
    SlugifyOfDashed(a + run + b, max, d);
  }

  /** A non-empty word whose lower case is a slug body. */
  predicate IsSlugWord(a: string) { a != [] && IsSlugBody(ToLower(a)) }

  lemma DashifyOfLowered(a: string, run: string, b: string)
    requires IsSlugBody(ToLower(a)) && IsSlugBody(ToLower(b)) && b != []
    requires run != [] && forall i :: 0 <= i < |run| ==> !IsLowerAlnum(LowerChar(run[i]))
    ensures Dashify(ToLower(a + run + b)) == ToLower(a) + "-" + ToLower(b)
  {
    var lr := ToLower(run);
    LowerOfThree(a, run, b);
    forall i | 0 <= i < |lr| ensures !IsLowerAlnum(lr[i]) {
      assert lr[i] == LowerChar(run[i]);
    }
    DashifyCollapsesRun(ToLower(a), lr, ToLower(b));
  }

  lemma LowerOfThree(a: string, run: string, b: string)
    ensures ToLower(a + run + b) == ToLower(a) + ToLower(run) + ToLower(b)
  {
    ToLowerConcat(a + run, b);
    ToLowerConcat(a, run);
  }

  /** Two non-empty slug bodies joined by '-' neither start nor end with '-'. */
  lemma DashedEnds(a: string, b: string)
    requires IsSlugBody(a) && a != [] && IsSlugBody(b) && b != []
    ensures var d := a + "-" + b; d != [] && d[0] != '-' && d[|d| - 1] != '-'
  {
    var d := a + "-" + b;
    assert d[0] == a[0] && d[|d| - 1] == b[|b| - 1];
  }

  /** A slug that fits and has no trailing '-' is its own slug. */
  lemma SlugifyOfSlug(s: string, max: nat)
    requires IsSlugBody(s) && |s| <= max
    ensures Slugify(s, max) == s
  {
    assert ToLower(s) == s;
    DashifyOfSlug(s);
  }

  // ----------------------------------------------------------- trivial titles

  const TrivialTitles: set<string> :=
    {"ok", "okay", "thanks", "thank you", "thx", "got it", "nice", "cool",
     "hello", "hi", "hey", "done", "yep", "yes"}

  /** `isTrivialTitle(title)`. */
  function IsTrivialTitle(title: string): (r: bool)
    ensures AllSpace(title) ==> r
    ensures r <==> AllSpace(title) || ToLower(Trim(title)) in TrivialTitles
  {
    TrimEmptyIffAllSpace(title);
    var lower := ToLower(Trim(title));
    lower == [] || lower in TrivialTitles
  }

  // ------------------------------------------------------------ session type

  /** Keyword groups in the order `detectSessionType` tries them. */
  const SessionTypeRules: seq<(string, seq<string>)> := [
    ("implementation", ["implement", "build", "create", "add feature", "write code"]),
    ("debugging", ["debug", "fix", "bug", "error", "troubleshoot"]),
    ("research", ["research", "investigate", "find out"]),
    ("planning", ["plan", "design", "architect", "strategy"]),
    ("review", ["review", "audit", "check", "validate"]),
    ("exploration", ["explore", "browse", "understand", "learn"])
  ]

  predicate ContainsAny(s: string, words: seq<string>) {
    exists w :: w in words && Contains(s, w)
  }

  function FirstMatchingRule(lower: string, rules: seq<(string, seq<string>)>): (r: string)
    ensures (exists i :: 0 <= i < |rules| && ContainsAny(lower, rules[i].1)) ==>
              exists i :: 0 <= i < |rules| && ContainsAny(lower, rules[i].1) && r == rules[i].0 &&
                forall j :: 0 <= j < i ==> !ContainsAny(lower, rules[j].1)
    ensures (forall i :: 0 <= i < |rules| ==> !ContainsAny(lower, rules[i].1)) ==> r == "implementation"
  {
    if rules == [] then "implementation"
    else if ContainsAny(lower, rules[0].1) then rules[0].0
    else
      var r := FirstMatchingRule(lower, rules[1..]);
      assert forall i :: 1 <= i < |rules| ==> rules[i] == rules[1..][i - 1];
      r
  }

  /** `detectSessionType(content)`: the first keyword group found wins. */
  function DetectSessionType(content: string): (r: string)
    ensures r in {"implementation", "debugging", "research", "planning", "review", "exploration"}
  {
    FirstMatchingRule(ToLower(content), SessionTypeRules)
  }

  lemma DebuggingWins(content: string)
    requires Contains(ToLower(content), "bug")
    requires !ContainsAny(ToLower(content), SessionTypeRules[0].1)
    ensures DetectSessionType(content) == "debugging"
  {
    assert ContainsAny(ToLower(content), SessionTypeRules[1].1) by {
      assert "bug" in SessionTypeRules[1].1;
    }
  }

  // --------------------------------------------------------- domain, project

  /** `normalizePath(path)` without URI decoding: back-slashes become '/'. */
  function NormalizePath(path: string): (r: string)
    ensures |r| == |path|
    ensures forall i :: 0 <= i < |r| ==> r[i] == (if path[i] == '\\' then '/' else path[i])
    ensures forall i :: 0 <= i < |r| ==> r[i] != '\\'
  {
    if path == [] then [] else [if path[0] == '\\' then '/' else path[0]] + NormalizePath(path[1..])
  }

  function WorkRoot(home: string): string { NormalizePath(home) + "/work/" }
  function PersonalRoot(home: string): string { NormalizePath(home) + "/personal/" }
  function OpenSourceRoot(home: string): string { NormalizePath(home) + "/opensource/" }

  /** `path || process.cwd()`, normalized. */
  function NormalizedTarget(path: string, cwd: string): string {
    NormalizePath(if path != [] then path else cwd)
  }

  /** `detectDomain(path)`. */
  function DetectDomain(path: string, home: string, cwd: string): (r: string)
    ensures r in {"work", "personal", "opensource"}
    ensures r == "work" <==> Contains(NormalizedTarget(path, cwd), WorkRoot(home))
    ensures r == "opensource" <==>
      !Contains(NormalizedTarget(path, cwd), WorkRoot(home)) &&
      !Contains(NormalizedTarget(path, cwd), PersonalRoot(home)) &&
      Contains(NormalizedTarget(path, cwd), OpenSourceRoot(home))
  {
    var n := NormalizedTarget(path, cwd);
    if Contains(n, WorkRoot(home)) then "work"
    else if Contains(n, PersonalRoot(home)) then "personal"
    else if Contains(n, OpenSourceRoot(home)) then "opensource"
    else "personal"
  }

  lemma ContainsAtStart(p: string, s: string)
    ensures Contains(p + s, p)
  {
    assert (p + s)[0..|p|] == p;
    assert OccursAt(p + s, p, 0);
  }

  lemma {:induction false} NormalizePathConcat(a: string, b: string)
    ensures NormalizePath(a + b) == NormalizePath(a) + NormalizePath(b)
  {
    if a != [] {
      assert (a + b)[1..] == a[1..] + b;
      NormalizePathConcat(a[1..], b);
    } else {
      assert a + b == b;
    }
  }

  /** A path under `<home>/work/` is in the work domain. */
  lemma DomainOfWorkPath(home: string, rest: string, cwd: string)
    ensures DetectDomain(home + "/work/" + rest, home, cwd) == "work"
  {
    var p := home + "/work/" + rest;
    NormalizePathConcat(home + "/work/", rest);
    NormalizePathConcat(home, "/work/");
    assert NormalizePath("/work/") == "/work/";
    var n := NormalizePath(p);
    assert n == WorkRoot(home) + NormalizePath(rest);
    ContainsAtStart(WorkRoot(home), NormalizePath(rest));
    assert NormalizedTarget(p, cwd) == n by { assert p != []; }
  }

  /** The first non-empty element, or "" (`find(Boolean) || ''`). */
  function FirstNonEmpty(parts: seq<string>): (r: string)
    ensures r == [] <==> forall i :: 0 <= i < |parts| ==> parts[i] == []
    ensures r != [] ==> exists i :: 0 <= i < |parts| && parts[i] == r && forall j :: 0 <= j < i ==> parts[j] == []
  {
    if parts == [] then []
    else if parts[0] != [] then parts[0]
    else
      var r := FirstNonEmpty(parts[1..]);
      assert forall i :: 1 <= i < |parts| ==> parts[i] == parts[1..][i - 1];
      r
  }

  function NonEmptyOnly(parts: seq<string>): (r: seq<string>)
    ensures forall i :: 0 <= i < |r| ==> r[i] != []
    ensures |r| <= |parts|
  {
    if parts == [] then []
    else if parts[0] == [] then NonEmptyOnly(parts[1..])
    else [parts[0]] + NonEmptyOnly(parts[1..])
  }

  /** The text after the first occurrence of `sep` up to the next (`split(sep)[1]`). */
  function SecondPiece(s: string, sep: string): string
    requires sep != []
  {
    var parts := SplitOn(s, sep);
    if |parts| >= 2 then parts[1] else []
  }

  function TrimTrailingSlashes(s: string): (r: string)
    ensures r == [] || r[|r| - 1] != '/'
    ensures |r| <= |s| && r == s[..|r|]
    ensures forall i :: |r| <= i < |s| ==> s[i] == '/'
  {
    if s != [] && s[|s| - 1] == '/' then TrimTrailingSlashes(s[..|s| - 1]) else s
  }

  /** POSIX `basename(p)`: the last non-empty '/'-segment, or "". */
  function Basename(p: string): (r: string)
    ensures forall i :: 0 <= i < |r| ==> r[i] != '/'
    ensures var q := TrimTrailingSlashes(p);
      |r| <= |q| && r == q[|q| - |r|..] && (|r| == |q| || q[|q| - |r| - 1] == '/')
  {
    var q := TrimTrailingSlashes(p);
    q[LastIndexOfChar(q, '/') + 1..]
  }

  /** The index where POSIX `dirname` cuts, scanning back from `i`; -1 if none. */
  function DirnameEnd(p: string, i: int, matchedSlash: bool): (r: int)
    requires -1 <= i < |p|
    decreases i
    ensures -1 <= r <= i
  {
    if i < 1 then -1
    else if p[i] == '/' then (if !matchedSlash then i else DirnameEnd(p, i - 1, true))
    else DirnameEnd(p, i - 1, false)
  }

  /** POSIX `dirname(p)`. */
  function Dirname(p: string): string {
    if p == [] then "."
    else
      var end := DirnameEnd(p, |p| - 1, true);
      if end == -1 then (if p[0] == '/' then "/" else ".")
      else if p[0] == '/' && end == 1 then "//"
      else p[..end]
  }

  /** `join(dir, name)` for a relative name. */
  function PathJoin(dir: string, name: string): (r: string)
    ensures EndsWith(r, name)
  {
    if dir == [] then name
    else if dir[|dir| - 1] == '/' then dir + name
    else dir + "/" + name
  }

  /** The directory part of a join does not depend on the name. */
  lemma PathJoinInjective(dir: string, a: string, b: string)
    requires PathJoin(dir, a) == PathJoin(dir, b)
    ensures a == b
  {
    var p := if dir == [] then [] else if dir[|dir| - 1] == '/' then dir else dir + "/";
    assert PathJoin(dir, a) == p + a && PathJoin(dir, b) == p + b;
    assert a == (p + a)[|p|..] && b == (p + b)[|p|..];
  }

  /** A slash-free suffix that is the whole text or follows a '/' is the text's last segment: there is one. */
  lemma LastSegmentUnique(q: string, x: string, y: string)
    requires |x| <= |q| && x == q[|q| - |x|..] && (|x| == |q| || q[|q| - |x| - 1] == '/')
    requires |y| <= |q| && y == q[|q| - |y|..] && (|y| == |q| || q[|q| - |y| - 1] == '/')
    requires forall i :: 0 <= i < |x| ==> x[i] != '/'
    requires forall i :: 0 <= i < |y| ==> y[i] != '/'
    ensures x == y
  {
  }

  /** After a prefix that is empty or ends in '/', a name without '/' is the base name. */
  lemma BasenameAfterSlash(p: string, name: string)
    requires name != [] && forall i :: 0 <= i < |name| ==> name[i] != '/'
    requires p == [] || p[|p| - 1] == '/'
    ensures Basename(p + name) == name
  {
    var q := p + name;
    assert q[|q| - 1] == name[|name| - 1];
    assert TrimTrailingSlashes(q) == q;
    var k := LastIndexOfChar(q, '/');
    assert k == |p| - 1 by {
      if p != [] {
        assert q[|p| - 1] == '/';
      }
    }
    assert q[|p|..] == name;
  }

  /** The base name of a joined path is the name joined on. */
  lemma BasenameOfJoin(dir: string, name: string)
    requires name != [] && forall i :: 0 <= i < |name| ==> name[i] != '/'
    ensures Basename(PathJoin(dir, name)) == name
  {
    var p := if dir == [] then [] else if dir[|dir| - 1] == '/' then dir else dir + "/";
    assert PathJoin(dir, name) == p + name;
    BasenameAfterSlash(p, name);
  }

  /** The project name found after the first of the three roots that yields one. */
  function ProjectUnderRoots(n: string, roots: seq<string>): (r: string)
    requires forall i :: 0 <= i < |roots| ==> roots[i] != []
  {
    if roots == [] then []
    else if Contains(n, roots[0]) && FirstNonEmpty(Split(SecondPiece(n, roots[0]), '/')) != [] then
      FirstNonEmpty(Split(SecondPiece(n, roots[0]), '/'))
    else ProjectUnderRoots(n, roots[1..])
  }

  /** The last '-'-part of the encoded `.claude/projects/<dir>` name, if any. */
  function EncodedProjectName(n: string): string {
    if Contains(n, "/.claude/projects/") then
      var encoded := Split(SecondPiece(n, "/.claude/projects/"), '/')[0];
      var cleaned := NonEmptyOnly(Split(DropLeading(encoded, '-'), '-'));
      if |cleaned| > 0 then cleaned[|cleaned| - 1] else []
    else []
  }

  function Roots(home: string): seq<string> {
    [WorkRoot(home), PersonalRoot(home), OpenSourceRoot(home)]
  }

  /** What `detectProject(path)` returns. */
  function ProjectOf(path: string, home: string, cwd: string): (r: string)
  {
    var n := NormalizedTarget(path, cwd);
    var underRoot := ProjectUnderRoots(n, Roots(home));
    if underRoot != [] then underRoot
    else if EncodedProjectName(n) != [] then EncodedProjectName(n)
    else
      var parent := Basename(Dirname(n));
      if parent != [] && parent != "." then parent else []
  }

  /** `detectProject(path)`: loops over the roots with an early return. */
  method DetectProject(path: string, home: string, cwd: string) returns (project: string)
    ensures project == ProjectOf(path, home, cwd)
  {
    var n := NormalizedTarget(path, cwd);
    var roots := Roots(home);
    var i := 0;
    while i < |roots|
      invariant 0 <= i <= |roots|
      invariant ProjectUnderRoots(n, roots) == ProjectUnderRoots(n, roots[i..])
    {
      if Contains(n, roots[i]) {
        var after := SecondPiece(n, roots[i]);
        var candidate := FirstNonEmpty(Split(after, '/'));
        if candidate != [] {
          assert roots[i..][0] == roots[i];
          project := candidate;
          return;
        }
      }
      assert roots[i..][1..] == roots[i + 1..];
      i := i + 1;
    }
    var encoded := EncodedProjectName(n);
    if encoded != [] {
      return encoded;
    }
    var parent := Basename(Dirname(n));
    project := if parent != [] && parent != "." then parent else [];
  }

  // -------------------------------------------------------- key/value lines

  predicate IsKeyChar(c: char) { 'a' <= c <= 'z' || c == '_' }

  /** The longest prefix of [a-z_] characters. */
  function KeyPrefix(s: string): (r: string)
    ensures |r| <= |s| && r == s[..|r|]
    ensures forall i :: 0 <= i < |r| ==> IsKeyChar(r[i])
    ensures |r| < |s| ==> !IsKeyChar(s[|r|])
  {
    if s != [] && IsKeyChar(s[0]) then [s[0]] + KeyPrefix(s[1..]) else []
  }

  /** The longest prefix without a '"'. */
  function NoQuotePrefix(s: string): (r: string)
    ensures |r| <= |s| && r == s[..|r|]
    ensures forall i :: 0 <= i < |r| ==> r[i] != '"'
    ensures |r| < |s| ==> s[|r|] == '"'
  {
    if s != [] && s[0] != '"' then [s[0]] + NoQuotePrefix(s[1..]) else []
  }

  function DropQuote(s: string): string {
    if s != [] && s[0] == '"' then s[1..] else s
  }

  /** What follows the colon once its leading white space and one opening '"' are dropped. */
  function Unquoted(afterColon: string): string {
    DropQuote(TrimStart(afterColon))
  }

  /**
   * The value part of the match: `\s*"?([^"]*)"?\s*$` after the colon.  The
   * value is everything up to the next '"', and the match fails exactly
   * when something other than white space follows that '"'.
   */
  function MatchValue(afterColon: string): (r: Option<string>)
    ensures r.Some? ==> forall i :: 0 <= i < |r.value| ==> r.value[i] != '"'
    ensures r.Some? ==> StartsWith(Unquoted(afterColon), r.value) &&
                        (|r.value| == |Unquoted(afterColon)| || Unquoted(afterColon)[|r.value|] == '"')
    ensures r.None? <==> exists i, j :: 0 <= i < j < |Unquoted(afterColon)| &&
                           Unquoted(afterColon)[i] == '"' && !IsSpace(Unquoted(afterColon)[j])
  {
    var u := Unquoted(afterColon);
    var value := NoQuotePrefix(u);
    if AllSpace(DropQuote(u[|value|..])) then
      assert forall i, j :: 0 <= i < j < |u| && u[i] == '"' ==> IsSpace(u[j]) by {
        forall i, j | 0 <= i < j < |u| && u[i] == '"' ensures IsSpace(u[j]) {
          assert u[..|value|] == value;
          assert DropQuote(u[|value|..]) == u[|value| + 1..];
          assert u[j] == DropQuote(u[|value|..])[j - |value| - 1];
        }
      }
      Some(value)
    else
      assert exists i, j :: 0 <= i < j < |u| && u[i] == '"' && !IsSpace(u[j]) by {
        var d := DropQuote(u[|value|..]);
        assert d == u[|value| + 1..];
        var k :| 0 <= k < |d| && !IsSpace(d[k]);
        assert u[|value| + 1 + k] == d[k];
      }
      None
  }

  /**
   * The match of `^([a-z_]+):\s*"?([^"]*)"?\s*$` against a line: the key
   * and the raw (untrimmed) value, or None.
   */
  function MatchKeyValue(line: string): (r: Option<(string, string)>)
    ensures r.Some? ==> r.value.0 != [] && (forall i :: 0 <= i < |r.value.0| ==> IsKeyChar(r.value.0[i]))
    ensures r.Some? ==> StartsWith(line, r.value.0 + ":")
    ensures r.Some? ==> forall i :: 0 <= i < |r.value.1| ==> r.value.1[i] != '"'
  {
    var key := KeyPrefix(line);
    if key == [] || |key| == |line| || line[|key|] != ':' then None
    else
      match MatchValue(line[|key| + 1..])
      case None => None
      case Some(value) =>
        PrefixExtend(line, |key|);
        Some((key, value))
  }

  /**
   * A line made of an [a-z_] key, a colon and a rest matches exactly when its
   * rest does; the key is then that key and the value the rest's value.
   * With `MatchKeyValue`'s own contract (a match starts with `key:`) this
   * says which lines match and what they give.
   */
  lemma MatchKeyValueOf(key: string, rest: string)
    requires key != [] && forall i :: 0 <= i < |key| ==> IsKeyChar(key[i])
    ensures MatchKeyValue(key + ":" + rest) ==
              if MatchValue(rest).Some? then Some((key, MatchValue(rest).value)) else None
  {
    var tail := ":" + rest;
    var line := key + ":" + rest;
    assert line == key + tail;
    KeyPrefixOf(key, tail);
    assert line[|key| + 1..] == rest;
  }

  /** A quoted value after `key: ` is matched without its quotes. */
  lemma MatchQuotedValue(key: string, value: string)
    requires key != [] && forall i :: 0 <= i < |key| ==> IsKeyChar(key[i])
    requires forall i :: 0 <= i < |value| ==> value[i] != '"'
    ensures MatchKeyValue(key + ": \"" + value + "\"") == Some((key, value))
  {
    var tail := ": \"" + value + "\"";
    var line := key + ": \"" + value + "\"";
    ConcatAssoc(key, ": \"", value, "\"");
    assert line == key + tail;
    assert tail[0] == ':';
    KeyPrefixOf(key, tail);
    assert line[|key| + 1..] == tail[1..];
    assert tail[1..] == " \"" + value + "\"";
    QuotedValueMatch(value);
  }

  lemma QuotedValueMatch(value: string)
    requires forall i :: 0 <= i < |value| ==> value[i] != '"'
    ensures MatchValue(" \"" + value + "\"") == Some(value)
  {
    var unquoted := value + "\"";
    var quoted := ['"'] + unquoted;
    var afterColon := [' '] + quoted;
    assert afterColon == " \"" + value + "\"";
    assert afterColon[1..] == quoted;
    assert TrimStart(quoted) == quoted;
    assert TrimStart(afterColon) == quoted;
    assert quoted[1..] == unquoted;
    assert DropQuote(quoted) == unquoted;
    NoQuotePrefixOf(value, "\"");
    assert unquoted[|value|..] == "\"";
    assert DropQuote("\"") == [];
  }

  lemma ConcatAssoc(a: string, b: string, c: string, d: string)
    ensures a + b + c + d == a + (b + c + d)
  {
  }

  lemma {:induction false} KeyPrefixOf(key: string, rest: string)
    requires forall i :: 0 <= i < |key| ==> IsKeyChar(key[i])
    requires rest != [] && !IsKeyChar(rest[0])
    ensures KeyPrefix(key + rest) == key
  {
    if key != [] {
      assert (key + rest)[1..] == key[1..] + rest;
      KeyPrefixOf(key[1..], rest);
    } else {
      assert key + rest == rest;
    }
  }

  lemma {:induction false} NoQuotePrefixOf(value: string, rest: string)
    requires forall i :: 0 <= i < |value| ==> value[i] != '"'
    requires rest != [] && rest[0] == '"'
    ensures NoQuotePrefix(value + rest) == value
  {
    if value != [] {
      assert (value + rest)[1..] == value[1..] + rest;
      NoQuotePrefixOf(value[1..], rest);
    } else {
      assert value + rest == rest;
    }
  }

  /** Record assignment in order: later keys overwrite earlier ones. */
  function AssignAll(pairs: seq<(string, string)>): (r: map<string, string>)
  {
    if pairs == [] then map[]
    else AssignAll(pairs[..|pairs| - 1])[pairs[|pairs| - 1].0 := pairs[|pairs| - 1].1]
  }

  /** A key is present iff some pair has it, and it holds the value of the last such pair. */
  lemma {:induction false} AssignAllLastWins(pairs: seq<(string, string)>, k: string)
    ensures k in AssignAll(pairs) <==> exists i :: 0 <= i < |pairs| && pairs[i].0 == k
    ensures k in AssignAll(pairs) ==>
      exists i :: 0 <= i < |pairs| && pairs[i] == (k, AssignAll(pairs)[k]) &&
        forall j :: i < j < |pairs| ==> pairs[j].0 != k
  {
    if pairs != [] {
      var n := |pairs| - 1;
      var init, last := pairs[..n], pairs[n];
      AssignAllLastWins(init, k);
      assert AssignAll(pairs) == AssignAll(init)[last.0 := last.1];
      if last.0 != k {
        if k in AssignAll(pairs) {
          var i :| 0 <= i < |init| && init[i] == (k, AssignAll(init)[k]) &&
            forall j :: i < j < |init| ==> init[j].0 != k;
          assert pairs[i] == init[i];
          forall j | i < j < |pairs| ensures pairs[j].0 != k {
            if j < n {
              assert pairs[j] == init[j];
            }
          }
        } else {
          forall i | 0 <= i < |pairs| ensures pairs[i].0 != k {
            if i < n {
              assert pairs[i] == init[i];
            }
          }
        }
      } else {
        assert pairs[n] == (k, AssignAll(pairs)[k]);
      }
    }
  }

  /** The key/value pairs of the matching lines, in order. */
  function MatchedPairs(lines: seq<string>): (r: seq<(string, string)>)
    ensures |r| <= |lines|
  {
    if lines == [] then []
    else
      var init := MatchedPairs(lines[..|lines| - 1]);
      match MatchKeyValue(lines[|lines| - 1])
      case Some(kv) => init + [kv]
      case None => init
  }

  lemma MatchedPairsSnoc(lines: seq<string>, line: string)
    ensures MatchedPairs(lines + [line]) ==
      match MatchKeyValue(line)
      case Some(kv) => MatchedPairs(lines) + [kv]
      case None => MatchedPairs(lines)
  {
    assert (lines + [line])[..|lines|] == lines;
  }

  lemma AssignAllSnoc(pairs: seq<(string, string)>, kv: (string, string))
    ensures AssignAll(pairs + [kv]) == AssignAll(pairs)[kv.0 := kv.1]
  {
    assert (pairs + [kv])[..|pairs|] == pairs;
  }

  /** `parseSimpleYaml(content)`: every matching line assigns its raw value. */
  method ParseSimpleYaml(content: string) returns (result: map<string, string>)
    ensures result == AssignAll(MatchedPairs(Split(content, '\n')))
  {
    var lines := Split(content, '\n');
    result := map[];
    var i := 0;
    while i < |lines|
      invariant 0 <= i <= |lines|
      invariant result == AssignAll(MatchedPairs(lines[..i]))
    {
      assert lines[..i + 1] == lines[..i] + [lines[i]];
      MatchedPairsSnoc(lines[..i], lines[i]);
      match MatchKeyValue(lines[i]) {
        case Some(kv) =>
          AssignAllSnoc(MatchedPairs(lines[..i]), kv);
          result := result[kv.0 := kv.1];
        case None =>
      }
      i := i + 1;
    }
    assert lines[..|lines|] == lines;
  }

  // ------------------------------------------------------- numbers and dates

  /** A value handed to `toNumber`: `Number(text)` is given as `asNumber`, None when not finite. */
  datatype NumberInput = Num(n: real) | Text(text: string, asNumber: Option<real>) | Undefined

  /** `toNumber(value)`. */
  function ToNumber(v: NumberInput): (r: real)
    ensures v.Num? ==> r == v.n
    ensures v.Undefined? || (v.Text? && (v.text == [] || v.asNumber.None?)) ==> r == 0.0
    ensures v.Text? && v.text != [] && v.asNumber.Some? ==> r == v.asNumber.value
  {
    match v
    case Num(n) => n
    case Undefined => 0.0
    case Text(t, parsed) => if t == [] then 0.0 else if parsed.Some? then parsed.value else 0.0
  }

  /** A date string together with what `Date.parse` makes of it (None for NaN). */
  datatype DateText = DateText(text: string, ms: Option<int>)

  /** `parseDateOrFallback(value, fallbackMs)`. */
  function ParseDateOrFallback(value: Option<DateText>, fallbackMs: int): (r: int)
    ensures value.None? || value.value.text == [] || value.value.ms.None? ==> r == fallbackMs
    ensures value.Some? && value.value.text != [] && value.value.ms.Some? ==> r == value.value.ms.value
  {
    if value.None? || value.value.text == [] then fallbackMs
    else if value.value.ms.None? then fallbackMs
    else value.value.ms.value
  }

}
