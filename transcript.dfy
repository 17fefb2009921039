/**
 * Reading session transcripts (JSONL) into a flat list of messages.  A
 * transcript is given as its parsed lines: `None` for a blank or malformed
 * line, and `None` for the whole file when it does not exist.
 */
module Transcript {
  import opened JsString
  import opened Json

  datatype Message = Message(role: string, content: string, timestamp: Option<string>, model: Option<string>)

  /** A content block is a text block when it is an object whose `type` is "text". */
  predicate IsTextBlock(block: Json) {
    IsString(Get(Some(block), "type"), "text")
  }

  /** The text of the blocks of `blocks` with type "text" and a string `text`. */
  function TextOfBlocks(blocks: seq<Json>): (r: seq<string>)
    ensures |r| <= |blocks|
  {
    if blocks == [] then []
    else
      var rest := TextOfBlocks(blocks[1..]);
      var text := AsString(Get(Some(blocks[0]), "text"));
      if IsTextBlock(blocks[0]) && text.Some? then [text.value] + rest else rest
  }

  /**
   * `extractContent(content)`: a string is kept, an array gives the text of
   * its text blocks joined by '\n', anything else gives "".  `None` when the
   * array holds a `null`, on which reading `.type` throws.
   */
  function ExtractContent(content: Option<Json>): (r: Option<string>)
    ensures content.Some? && content.value.JStr? ==> r == Some(content.value.s)
    ensures content.None? || !(content.value.JStr? || content.value.JArr?) ==> r == Some([])
    ensures r.None? ==> content.Some? && content.value.JArr? && JNull in content.value.items
  {
    match content
    case Some(JStr(s)) => Some(s)
    case Some(JArr(items)) =>
      if JNull in items then None else Some(Join(TextOfBlocks(items), "\n"))
    case _ => Some([])
  }

  /** `if (x) msg.field = String(x)`. */
  function OptionalString(value: Option<Json>): (r: Option<string>)
    ensures r.Some? <==> Truthy(value)
  {
    if Truthy(value) then Some(ToJsString(value.value)) else None
  }

  /** The message one line of a Claude Code transcript contributes, if any. */
  function CodeMessage(line: Option<Json>): (r: Option<Message>)
    ensures r.Some? ==> r.value.role in {"user", "assistant"} && r.value.content != []
    ensures r.Some? ==> r.value.timestamp.Some? == Truthy(Get(line, "timestamp"))
    ensures r.Some? ==> r.value.model.Some? == Truthy(Get(line, "model"))
    ensures r.Some? <==>
      (IsString(Get(line, "role"), "user") || IsString(Get(line, "role"), "assistant")) &&
      ExtractContent(Get(line, "content")).Some? && ExtractContent(Get(line, "content")).value != []
    ensures r.Some? ==>
      Get(line, "role") == Some(JStr(r.value.role)) && ExtractContent(Get(line, "content")) == Some(r.value.content) &&
      r.value.timestamp == OptionalString(Get(line, "timestamp")) && r.value.model == OptionalString(Get(line, "model"))
  {
    var role := Get(line, "role");
    if !(IsString(role, "user") || IsString(role, "assistant")) then None
    else match ExtractContent(Get(line, "content"))
      case None => None
      case Some(content) =>
        if content == [] then None
        else Some(Message(role.value.s, content, OptionalString(Get(line, "timestamp")), OptionalString(Get(line, "model"))))
  }

  /** The key `roleMap[type]` looks up: `String(type)`; a falsy type is skipped before the lookup. */
  function TypeKey(entryType: Option<Json>): (r: Option<string>)
    ensures !Truthy(entryType) ==> r.None?
    ensures entryType.Some? && entryType.value.JStr? && entryType.value.s != [] ==> r == Some(entryType.value.s)
  {
    if Truthy(entryType) then Some(ToJsString(entryType.value)) else None
  }

  /** The desktop `type` → role table. */
  function DesktopRole(entryType: Option<Json>): (r: Option<string>)
    ensures r.Some? <==>
      TypeKey(entryType).Some? && TypeKey(entryType).value in {"user", "assistant", "system", "tool_use_summary", "tool_result"}
  {
    match TypeKey(entryType)
    case None => None
    case Some(key) =>
      if key == "user" then Some("user")
      else if key == "assistant" then Some("assistant")
      else if key == "system" then Some("system")
      else if key == "tool_use_summary" then Some("tool")
      else if key == "tool_result" then Some("tool_result")
      else None
  }

  /** Desktop types keep their name as the role, except that a tool-use summary becomes `tool`. */
  lemma DesktopRoleTable(entryType: Option<Json>)
    ensures IsString(entryType, "tool_use_summary") ==> DesktopRole(entryType) == Some("tool")
    ensures forall t :: t in ["user", "assistant", "system", "tool_result"] && IsString(entryType, t) ==>
      DesktopRole(entryType) == Some(t)
  {
  }

  /** The lookup converts its key to a string, so a one-element array holding a known type finds that type. */
  lemma DesktopRoleCoercesKey(t: string)
    requires t in ["user", "assistant", "system", "tool_result"]
    ensures DesktopRole(Some(JArr([JStr(t)]))) == Some(t)
  {
    var items := [JStr(t)];
    assert seq(|items|, i requires 0 <= i < |items| => if items[i].JNull? then "" else ToJsString(items[i])) == [t];
  }

  /** The message one line of a Claude Desktop audit log contributes, if any. */
  function DesktopMessage(line: Option<Json>): (r: Option<Message>)
    ensures r.Some? ==> r.value.role in {"user", "assistant", "system", "tool", "tool_result"} && r.value.content != []
    ensures r.Some? ==> r.value.timestamp.Some? == Truthy(Get(line, "_audit_timestamp"))
    ensures r.Some? <==>
      DesktopRole(Get(line, "type")).Some? &&
      ExtractContent(Get(line, "content")).Some? && ExtractContent(Get(line, "content")).value != []
    ensures r.Some? ==>
      DesktopRole(Get(line, "type")) == Some(r.value.role) && ExtractContent(Get(line, "content")) == Some(r.value.content) &&
      r.value.timestamp == OptionalString(Get(line, "_audit_timestamp")) &&
      r.value.model == OptionalString(Get(line, "model"))
  {
    match DesktopRole(Get(line, "type"))
    case None => None
    case Some(role) =>
      match ExtractContent(Get(line, "content"))
      case None => None
      case Some(content) =>
        if content == [] then None
        else Some(Message(role, content, OptionalString(Get(line, "_audit_timestamp")), OptionalString(Get(line, "model"))))
  }

  datatype Source = ClaudeCode | ClaudeDesktop

  function MessageOf(source: Source, line: Option<Json>): Option<Message> {
    if source == ClaudeCode then CodeMessage(line) else DesktopMessage(line)
  }

  /** The messages of the lines that yield one, in line order. */
  function Messages(source: Source, lines: seq<Option<Json>>): (r: seq<Message>)
    ensures |r| <= |lines|
    ensures forall i :: 0 <= i < |lines| && MessageOf(source, lines[i]).Some? ==> MessageOf(source, lines[i]).value in r
    ensures r == [] <==> forall i :: 0 <= i < |lines| ==> MessageOf(source, lines[i]).None?
  {
    if lines == [] then []
    else
      var n := |lines| - 1;
      var init := Messages(source, lines[..n]);
      assert forall i :: 0 <= i < n ==> lines[..n][i] == lines[i];
      match MessageOf(source, lines[n])
      case Some(m) => init + [m]
      case None => init
  }

  lemma MessagesSnoc(source: Source, lines: seq<Option<Json>>, line: Option<Json>)
    ensures Messages(source, lines + [line]) ==
      match MessageOf(source, line)
      case Some(m) => Messages(source, lines) + [m]
      case None => Messages(source, lines)
  {
    assert (lines + [line])[..|lines|] == lines;
  }

  lemma MessagesStep(source: Source, lines: seq<Option<Json>>, i: nat)
    requires i < |lines|
    ensures Messages(source, lines[..i + 1]) ==
      match MessageOf(source, lines[i])
      case Some(m) => Messages(source, lines[..i]) + [m]
      case None => Messages(source, lines[..i])
  {
    assert lines[..i + 1] == lines[..i] + [lines[i]];
    MessagesSnoc(source, lines[..i], lines[i]);
  }

  /** Reads a transcript line by line, skipping what yields no message. */
  method ReadTranscript(source: Source, file: Option<seq<Option<Json>>>) returns (messages: seq<Message>)
    ensures file.None? ==> messages == []
    ensures file.Some? ==> messages == Messages(source, file.value)
  {
    if file.None? {
      return [];
    }
    var lines := file.value;
    messages := [];
    var i := 0;
    while i < |lines|
      invariant 0 <= i <= |lines|
      invariant messages == Messages(source, lines[..i])
    {
      MessagesStep(source, lines, i);
      var m := MessageOf(source, lines[i]);
      if m.Some? {
        messages := messages + [m.value];
      }
      i := i + 1;
    }
    assert lines[..|lines|] == lines;
  }

  /** `readCodeTranscript(path)`. */
  method ReadCodeTranscript(file: Option<seq<Option<Json>>>) returns (messages: seq<Message>)
    ensures file.None? ==> messages == []
    ensures file.Some? ==> messages == Messages(ClaudeCode, file.value)
    ensures forall m :: m in messages ==> m.role in {"user", "assistant"} && m.content != []
  {
    messages := ReadTranscript(ClaudeCode, file);
    forall m | m in messages ensures m.role in {"user", "assistant"} && m.content != [] {
      var i := EachFromALine(ClaudeCode, file.value, m);
    }
  }

  /** `readDesktopTranscript(path)`. */
  method ReadDesktopTranscript(file: Option<seq<Option<Json>>>) returns (messages: seq<Message>)
    ensures file.None? ==> messages == []
    ensures file.Some? ==> messages == Messages(ClaudeDesktop, file.value)
    ensures forall m :: m in messages ==> m.role in {"user", "assistant", "system", "tool", "tool_result"}
  {
    messages := ReadTranscript(ClaudeDesktop, file);
    forall m | m in messages ensures m.role in {"user", "assistant", "system", "tool", "tool_result"} {
      var i := EachFromALine(ClaudeDesktop, file.value, m);
    }
  }

  /** The values present in `ys`, in order. */
  function Somes<T>(ys: seq<Option<T>>): (r: seq<T>)
    ensures |r| <= |ys|
  {
    if ys == [] then []
    else
      var init := Somes(ys[..|ys| - 1]);
      match ys[|ys| - 1]
      case Some(y) => init + [y]
      case None => init
  }

  /** What each line yields. */
  function Yields(source: Source, lines: seq<Option<Json>>): (r: seq<Option<Message>>)
    ensures |r| == |lines|
  {
    if lines == [] then [] else Yields(source, lines[..|lines| - 1]) + [MessageOf(source, lines[|lines| - 1])]
  }

  lemma {:induction false} YieldAt(source: Source, lines: seq<Option<Json>>, i: nat)
    requires i < |lines|
    ensures Yields(source, lines)[i] == MessageOf(source, lines[i])
  {
    var n := |lines| - 1;
    var prev := Yields(source, lines[..n]);
    assert Yields(source, lines) == prev + [MessageOf(source, lines[n])];
    if i < n {
      YieldAt(source, lines[..n], i);
      assert lines[..n][i] == lines[i];
    }
  }

  /** The messages of a transcript are exactly the values its lines yield. */
  lemma {:induction false} MessagesAreSomes(source: Source, lines: seq<Option<Json>>)
    ensures Messages(source, lines) == Somes(Yields(source, lines))
  {
    if lines != [] {
      var n := |lines| - 1;
      MessagesAreSomes(source, lines[..n]);
      var ys := Yields(source, lines);
      assert ys[..n] == Yields(source, lines[..n]);
      assert ys[n] == MessageOf(source, lines[n]);
    }
  }

  /** The position each value of `Somes(ys)` comes from, strictly increasing. */
  lemma {:induction false} SomesOrigins<T>(ys: seq<Option<T>>) returns (origin: seq<nat>)
    ensures |origin| == |Somes(ys)|
    ensures forall k :: 0 <= k < |origin| ==> origin[k] < |ys| && ys[origin[k]] == Some(Somes(ys)[k])
    ensures forall k :: 0 < k < |origin| ==> origin[k - 1] < origin[k]
  {
    if ys == [] {
      return [];
    }
    var n := |ys| - 1;
    var earlier := SomesOrigins(ys[..n]);
    assert ys[..n] + [ys[n]] == ys;
    if ys[n].Some? {
      assert Somes(ys) == Somes(ys[..n]) + [ys[n].value];
      origin := earlier + [n];
      forall k | 0 <= k < |origin| ensures origin[k] < |ys| && ys[origin[k]] == Some(Somes(ys)[k]) {
        if k < |earlier| {
          assert origin[k] == earlier[k] && ys[..n][earlier[k]] == ys[earlier[k]];
        }
      }
      forall k | 0 < k < |origin| ensures origin[k - 1] < origin[k] {
        if k < |earlier| {
          assert origin[k - 1] == earlier[k - 1] && origin[k] == earlier[k];
        }
      }
    } else {
      assert Somes(ys) == Somes(ys[..n]);
      origin := earlier;
      forall k | 0 <= k < |origin| ensures origin[k] < |ys| && ys[origin[k]] == Some(Somes(ys)[k]) {
        assert ys[..n][earlier[k]] == ys[earlier[k]];
      }
    }
  }

  /** The line each message comes from: `origin[k]` is the line of the k-th message, strictly increasing in k. */
  lemma Origins(source: Source, lines: seq<Option<Json>>) returns (origin: seq<nat>)
    ensures |origin| == |Messages(source, lines)|
    ensures forall k :: 0 <= k < |origin| ==>
              origin[k] < |lines| && MessageOf(source, lines[origin[k]]) == Some(Messages(source, lines)[k])
    ensures forall k :: 0 < k < |origin| ==> origin[k - 1] < origin[k]
  {
    MessagesAreSomes(source, lines);
    origin := SomesOrigins(Yields(source, lines));
    forall k | 0 <= k < |origin| ensures MessageOf(source, lines[origin[k]]) == Some(Messages(source, lines)[k]) {
      YieldAt(source, lines, origin[k]);
    }
  }

  /** Every message is what some line yields. */
  lemma EachFromALine(source: Source, lines: seq<Option<Json>>, m: Message) returns (i: nat)
    requires m in Messages(source, lines)
    ensures i < |lines| && MessageOf(source, lines[i]) == Some(m)
  {
    var origin := Origins(source, lines);
    var k :| 0 <= k < |Messages(source, lines)| && Messages(source, lines)[k] == m;
    i := origin[k];
  }

  /** Messages come out in line order: the k-th message is from a line after the (k-1)-th one's. */
  lemma MessagesInOrder(source: Source, lines: seq<Option<Json>>, k: nat)
    requires 0 < k < |Messages(source, lines)|
    ensures exists i, j ::
              0 <= i < j < |lines| &&
              MessageOf(source, lines[i]) == Some(Messages(source, lines)[k - 1]) &&
              MessageOf(source, lines[j]) == Some(Messages(source, lines)[k])
  {
    var origin := Origins(source, lines);
    assert 0 <= origin[k - 1] < origin[k] < |lines|;
  }
}
