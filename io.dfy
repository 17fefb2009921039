/**
 * File helpers: the collision-free note path and the two backward scans
 * over a transcript (last assistant message, last model name).  The set of
 * existing files and the parsed transcript lines are parameters.
 */
module FileIo {
  import opened JsString
  import opened Json
  import opened Common

  // ------------------------------------------------------ nextAvailableFilePath

  /** `${baseName}_${counter}.md` */
  function NumberedName(baseName: string, counter: nat): string {
    baseName + "_" + NatToString(counter) + ".md"
  }

  lemma NumberedNameInjective(baseName: string, a: nat, b: nat)
    requires NumberedName(baseName, a) == NumberedName(baseName, b)
    ensures a == b
  {
    var p := baseName + "_";
    var x, y := NatToString(a), NatToString(b);
    assert NumberedName(baseName, a) == p + x + ".md";
    assert NumberedName(baseName, b) == p + y + ".md";
    assert |x| == |y|;
    assert x == (p + x + ".md")[|p|..|p| + |x|];
    assert y == (p + y + ".md")[|p|..|p| + |y|];
    NatToStringInjective(a, b);
  }

  function Numbered(dir: string, baseName: string, counter: nat): string {
    PathJoin(dir, NumberedName(baseName, counter))
  }

  /** The numbered names are distinct, so `existing` holds at least `counter - 2` of them when it holds those below `counter`. */
  lemma {:induction false} NumberedBelow(dir: string, baseName: string, existing: set<string>, counter: nat)
    requires counter >= 2
    requires forall j :: 2 <= j < counter ==> Numbered(dir, baseName, j) in existing
    ensures counter - 2 <= |existing|
  {
    if counter > 2 {
      var last := Numbered(dir, baseName, counter - 1);
      forall j | 2 <= j < counter - 1 ensures Numbered(dir, baseName, j) in existing - {last} {
        if Numbered(dir, baseName, j) == last {
          PathJoinInjective(dir, NumberedName(baseName, j), NumberedName(baseName, counter - 1));
          NumberedNameInjective(baseName, j, counter - 1);
        }
      }
      NumberedBelow(dir, baseName, existing - {last}, counter - 1);
    }
  }

  /** The first of `<base>_<counter>.md`, `<base>_<counter + 1>.md`, ... that is not in `existing`. */
  function FreeFrom(dir: string, baseName: string, existing: set<string>, counter: nat): (r: string)
    requires counter >= 2
    requires forall j :: 2 <= j < counter ==> Numbered(dir, baseName, j) in existing
    ensures r !in existing
    ensures exists k :: k >= counter && r == Numbered(dir, baseName, k) &&
                        forall j :: 2 <= j < k ==> Numbered(dir, baseName, j) in existing
    decreases |existing| + 2 - counter
  {
    NumberedBelow(dir, baseName, existing, counter);
    if Numbered(dir, baseName, counter) !in existing then Numbered(dir, baseName, counter)
    else
      NumberedBelow(dir, baseName, existing, counter + 1);
      FreeFrom(dir, baseName, existing, counter + 1)
  }

  /** The path `nextAvailableFilePath` settles on: `<base>.md`, or the least free `<base>_<k>.md` with k >= 2. */
  function NextFreePath(dir: string, baseName: string, existing: set<string>): (r: string)
    ensures r !in existing
    ensures PathJoin(dir, baseName + ".md") !in existing ==> r == PathJoin(dir, baseName + ".md")
    ensures PathJoin(dir, baseName + ".md") in existing ==>
      exists k :: k >= 2 && r == Numbered(dir, baseName, k) &&
        forall j :: 2 <= j < k ==> Numbered(dir, baseName, j) in existing
  {
    if PathJoin(dir, baseName + ".md") !in existing then PathJoin(dir, baseName + ".md")
    else FreeFrom(dir, baseName, existing, 2)
  }

  /**
   * `nextAvailableFilePath(dir, baseName)`: `<base>.md` when it is free,
   * otherwise `<base>_<k>.md` for the least k >= 2 that is free.
   */
  method NextAvailableFilePath(dir: string, baseName: string, existing: set<string>) returns (path: string)
    ensures path == NextFreePath(dir, baseName, existing)
    ensures path !in existing
    ensures PathJoin(dir, baseName + ".md") !in existing ==> path == PathJoin(dir, baseName + ".md")
    ensures PathJoin(dir, baseName + ".md") in existing ==>
      exists k :: k >= 2 && path == Numbered(dir, baseName, k) &&
        forall j :: 2 <= j < k ==> Numbered(dir, baseName, j) in existing
  {
    var first := PathJoin(dir, baseName + ".md");
    if first !in existing {
      return first;
    }
    var counter := 2;
    ghost var tried: set<string> := {};
    while true
      invariant counter >= 2
      invariant forall j :: 2 <= j < counter ==> Numbered(dir, baseName, j) in existing
      invariant forall p :: p in tried ==> exists j :: 2 <= j < counter && p == Numbered(dir, baseName, j)
      invariant tried <= existing && |tried| == counter - 2
      invariant FreeFrom(dir, baseName, existing, 2) == FreeFrom(dir, baseName, existing, counter)
      decreases |existing| - |tried|
    {
      var candidate := Numbered(dir, baseName, counter);
      if candidate !in existing {
        return candidate;
      }
      assert candidate !in tried by {
        if candidate in tried {
          var j :| 2 <= j < counter && candidate == Numbered(dir, baseName, j);
          PathJoinInjective(dir, NumberedName(baseName, counter), NumberedName(baseName, j));
          NumberedNameInjective(baseName, counter, j);
        }
      }
      SubsetCardinality(tried + {candidate}, existing);
      tried := tried + {candidate};
      counter := counter + 1;
    }
  }

  lemma SubsetCardinality<T>(a: set<T>, b: set<T>)
    requires a <= b
    ensures |a| <= |b|
  {
    assert b == a + (b - a);
  }

  // ----------------------------------------------------------- backward scans

  /** The value of the last line for which `f` gives one. */
  function LastHit<T>(lines: seq<Option<Json>>, f: Option<Json> -> Option<T>): (r: Option<T>)
    ensures r.None? ==> forall i :: 0 <= i < |lines| ==> f(lines[i]).None?
    ensures r.Some? ==> exists i :: 0 <= i < |lines| && f(lines[i]) == r &&
                          forall j :: i < j < |lines| ==> f(lines[j]).None?
  {
    if lines == [] then None
    else
      var hit := f(lines[|lines| - 1]);
      if hit.Some? then hit
      else
        var r := LastHit(lines[..|lines| - 1], f);
        assert forall i :: 0 <= i < |lines| - 1 ==> lines[..|lines| - 1][i] == lines[i];
        r
  }

  /** The backward loop `for (i = lines.length - 1; i >= 0; i--)` with an early return. */
  method ScanBackward<T>(lines: seq<Option<Json>>, f: Option<Json> -> Option<T>) returns (r: Option<T>)
    ensures r == LastHit(lines, f)
  {
    var i := |lines|;
    while i > 0
      invariant 0 <= i <= |lines|
      invariant LastHit(lines, f) == LastHit(lines[..i], f)
    {
      var hit := f(lines[i - 1]);
      assert lines[..i][..i - 1] == lines[..i - 1];
      if hit.Some? {
        return hit;
      }
      i := i - 1;
    }
    return None;
  }

  /** `String(c.text)` inside `Array.join`: undefined and null become "". */
  function JoinedText(v: Option<Json>): string {
    if v.None? || v.value.JNull? then [] else ToJsString(v.value)
  }

  function TextsOfTextBlocks(blocks: seq<Json>): (r: seq<string>)
    ensures |r| <= |blocks|
  {
    if blocks == [] then []
    else
      var rest := TextsOfTextBlocks(blocks[1..]);
      if IsString(Get(Some(blocks[0]), "type"), "text") then [JoinedText(Get(Some(blocks[0]), "text"))] + rest else rest
  }

  /**
   * What one transcript line gives `getLastAssistantMessage`: the content of
   * an assistant entry whose content is a string or an array.  An array
   * holding a `null` throws on `.type`, which skips the line.
   */
  function AssistantText(line: Option<Json>): (r: Option<string>)
    ensures r.Some? ==> IsString(Get(line, "role"), "assistant") && Truthy(Get(line, "content"))
  {
    var content := Get(line, "content");
    if !IsString(Get(line, "role"), "assistant") || !Truthy(content) then None
    else match content.value
      case JStr(s) => Some(s)
      case JArr(items) => if JNull in items then None else Some(Join(TextsOfTextBlocks(items), "\n"))
      case _ => None
  }

  /** `getLastAssistantMessage(path)`; an unreadable file gives "". */
  method GetLastAssistantMessage(file: Option<seq<Option<Json>>>) returns (text: string)
    ensures file.None? ==> text == []
    ensures file.Some? && LastHit(file.value, AssistantText).None? ==> text == []
    ensures file.Some? ==> forall i :: 0 <= i < |file.value| && AssistantText(file.value[i]).Some? ==>
      exists j :: i <= j < |file.value| && Some(text) == AssistantText(file.value[j])
  {
    if file.None? {
      return [];
    }
    var hit := ScanBackward(file.value, AssistantText);
    text := if hit.Some? then hit.value else [];
  }

  /** `entry?.model || entry?.message?.model || entry?.metadata?.model || ''` */
  function ModelField(line: Option<Json>): Option<Json> {
    if Truthy(Get(line, "model")) then Get(line, "model")
    else if Truthy(Get(Get(line, "message"), "model")) then Get(Get(line, "message"), "model")
    else if Truthy(Get(Get(line, "metadata"), "model")) then Get(Get(line, "metadata"), "model")
    else Some(JStr([]))
  }

  /** What one line gives `detectModelFromTranscript`: the chosen field, when it is a non-empty string. */
  function ModelName(line: Option<Json>): (r: Option<string>)
    ensures r.Some? ==> r.value != []
  {
    var m := ModelField(line);
    if m.Some? && m.value.JStr? && m.value.s != [] then Some(m.value.s) else None
  }

  /** `detectModelFromTranscript(path)`. */
  method DetectModelFromTranscript(path: string, file: Option<seq<Option<Json>>>) returns (model: string)
    ensures path == [] || file.None? ==> model == []
    ensures model != [] ==>
              path != [] && file.Some? &&
              exists i :: 0 <= i < |file.value| && ModelName(file.value[i]) == Some(model) &&
                forall j :: i < j < |file.value| ==> ModelName(file.value[j]).None?
    ensures path != [] && file.Some? ==>
              (model == [] <==> forall i :: 0 <= i < |file.value| ==> ModelName(file.value[i]).None?)
    ensures path != [] && file.Some? ==>
              model == (var h := LastHit(file.value, ModelName); if h.Some? then h.value else [])
  {
    if path == [] || file.None? {
      return [];
    }
    var hit := ScanBackward(file.value, ModelName);
    model := if hit.Some? then hit.value else [];
  }

  /** A line whose `model` is a non-empty string wins over `message.model`. */
  lemma TopLevelModelWins(line: Option<Json>, name: string)
    requires name != [] && Get(line, "model") == Some(JStr(name))
    ensures ModelName(line) == Some(name)
  {
  }

  /** A truthy non-string `model` hides `message.model`: the line gives nothing. */
  lemma NonStringModelHides(line: Option<Json>, n: int)
    requires n != 0 && Get(line, "model") == Some(JNum(n))
    ensures ModelName(line).None?
  {
  }
}
