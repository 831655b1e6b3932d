/** Content blocks of a chat step, in any provider's form, and what of them Anthropic is sent. */
module Blocks {
  import opened Base

  /** JSON values. `JDecoded` is the object a JSON text decodes to (empty if it decodes to no object) and
      `JDumped` the text of a value: encoding itself is not modelled. Objects are maps, so key order is not. */
  datatype Json =
    | JNull | JBool(b: bool) | JNum(n: int) | JStr(s: string) | JArr(items: seq<Json>)
    | JObj(fields: Object) | JDecoded(text: string) | JDumped(value: Json)

  type Object = map<string, Json>

  /** `dict.get`. */
  function Get(o: Object, key: string): Json {
    if key in o then o[key] else JNull
  }

  function TypeName(block: Json): Option<string> {
    if block.JObj? && Get(block.fields, "type").JStr? then Some(Get(block.fields, "type").s) else None
  }

  predicate IsType(block: Json, name: string) {
    TypeName(block) == Some(name)
  }

  // ----- Any stored form, as domain blocks -----

  predicate IsChatCompletionsMessage(content: seq<Json>) {
    |content| == 1 && content[0].JObj?
    && Get(content[0].fields, "role") == JStr("assistant") && "type" !in content[0].fields
  }

  function Text(s: string): Json {
    JObj(map["type" := JStr("text"), "text" := JStr(s)])
  }

  function TextParts(parts: seq<Json>): seq<Json> {
    if parts == [] then []
    else
      var part := parts[0];
      (if IsType(part, "text") && Get(part.fields, "text").JStr? && Get(part.fields, "text").s != ""
       then [Text(Get(part.fields, "text").s)] else [])
      + TextParts(parts[1..])
  }

  function ParseArguments(arguments: Json): Json {
    if arguments.JObj? then arguments
    else if arguments.JStr? && Strip(arguments.s) != "" then JDecoded(arguments.s)
    else JObj(map[])
  }

  function ToolUse(id: Json, name: string, input: Json): Json {
    JObj(map["type" := JStr("tool_use"), "id" := id, "name" := JStr(name), "input" := input])
  }

  function CallBlocks(calls: seq<Json>): seq<Json> {
    if calls == [] then []
    else
      (if calls[0].JObj? && Get(calls[0].fields, "function").JObj?
          && Get(Get(calls[0].fields, "function").fields, "name").JStr?
       then
         var f := Get(calls[0].fields, "function").fields;
         [ToolUse(Get(calls[0].fields, "id"), Get(f, "name").s, ParseArguments(Get(f, "arguments")))]
       else [])
      + CallBlocks(calls[1..])
  }

  function FromChatCompletions(message: Object): seq<Json> {
    var text := Get(message, "content");
    var calls := Get(message, "tool_calls");
    (if text.JStr? then (if text.s != "" then [Text(text.s)] else [])
     else if text.JArr? then TextParts(text.items) else [])
    + if calls.JArr? then CallBlocks(calls.items) else []
  }

  /** The one recognizer of the stored forms. */
  function ToDomainBlocks(content: seq<Json>): seq<Json> {
    if IsChatCompletionsMessage(content) then FromChatCompletions(content[0].fields) else content
  }

  // ----- Anthropic's input schema -----

  const TOOL_CALL_FIELDS := {"type", "id", "name", "input"}

  /** The wire fields of a block type that has an allowlist. */
  function WireFields(name: string): Option<set<string>> {
    if name == "text" then Some({"type", "text"})
    else if name == "image" || name == "document" then Some({"type", "source"})
    else if name == "tool_use" || name == "server_tool_use" then Some(TOOL_CALL_FIELDS)
    else if name == "thinking" then Some({"type", "thinking", "signature"})
    else if name == "redacted_thinking" then Some({"type", "data"})
    else if name == "web_search_tool_result" then Some({"type", "tool_use_id", "content"})
    else None
  }

  const ASSISTANT_INPUT_TYPES := {
    "text", "image", "document", "search_result", "tool_use", "tool_result", "thinking", "redacted_thinking",
    "server_tool_use", "web_search_tool_result", "web_fetch_tool_result", "code_execution_tool_result",
    "bash_code_execution_tool_result", "text_editor_code_execution_tool_result", "mcp_tool_use",
    "mcp_tool_result", "container_upload"}

  function NormalizeBlock(o: Object): Object {
    var t := Get(o, "type");
    if t.JStr? && WireFields(t.s).Some? then
      var allowed := WireFields(t.s).value;
      map k | k in o && k in allowed :: o[k]
    else map k | k in o && k != "caller" && o[k] != JNull :: o[k]
  }

  predicate Sendable(block: Json) {
    TypeName(block).Some? && TypeName(block).value in ASSISTANT_INPUT_TYPES
  }

  function Kept(domain: seq<Json>): seq<Json> {
    if domain == [] then []
    else Kept(domain[..|domain| - 1])
         + if Sendable(domain[|domain| - 1]) then [JObj(NormalizeBlock(domain[|domain| - 1].fields))] else []
  }

  function ReplaySpec(content: seq<Json>): seq<Json> {
    Kept(ToDomainBlocks(content))
  }

  method ReplayAssistantBlocks(content: seq<Json>) returns (out: seq<Json>)
    ensures out == ReplaySpec(content)
  {
    var domain := ToDomainBlocks(content);
    out := [];
    for i := 0 to |domain|
      invariant out == Kept(domain[..i])
    {
      assert domain[..i + 1][..i] == domain[..i];
      var block := domain[i];
      if !block.JObj? {
        continue;
      }
      var blockType := Get(block.fields, "type");
      if !blockType.JStr? || blockType.s !in ASSISTANT_INPUT_TYPES {
        continue;
      }
      var normalized := NormalizeBlock(block.fields);
      out := out + [if normalized == block.fields then block else JObj(normalized)];
    }
    assert domain[..|domain|] == domain;
  }

  // ----- What replay preserves -----

  lemma NormalizeKeeps(o: Object)
    requires Get(o, "type").JStr?
    ensures Get(NormalizeBlock(o), "type") == Get(o, "type")
    ensures NormalizeBlock(NormalizeBlock(o)) == NormalizeBlock(o)
    ensures IsType(JObj(o), "tool_use") ==>
              forall k :: k in TOOL_CALL_FIELDS ==> Get(NormalizeBlock(o), k) == Get(o, k)
  {
  }

  /** A call that can be answered: its id and name are non-empty strings. */
  function CallId(block: Json): seq<string> {
    if IsType(block, "tool_use")
       && Get(block.fields, "id").JStr? && Get(block.fields, "id").s != ""
       && Get(block.fields, "name").JStr? && Get(block.fields, "name").s != ""
    then [Get(block.fields, "id").s] else []
  }

  function CallIds(domain: seq<Json>): seq<string> {
    if domain == [] then [] else CallIds(domain[..|domain| - 1]) + CallId(domain[|domain| - 1])
  }

  /** The ids of the calls of a stored step, whatever its form. */
  function Calls(content: seq<Json>): seq<string> {
    CallIds(ToDomainBlocks(content))
  }

  lemma {:induction false} KeptKeepsCalls(domain: seq<Json>)
    ensures CallIds(Kept(domain)) == CallIds(domain)
    ensures Kept(Kept(domain)) == Kept(domain)
    ensures forall i :: 0 <= i < |Kept(domain)| ==> Kept(domain)[i].JObj? && "type" in Kept(domain)[i].fields
    decreases |domain|
  {
    if domain != [] {
      var n := |domain| - 1;
      KeptKeepsCalls(domain[..n]);
      var out := Kept(domain);
      if Sendable(domain[n]) {
        NormalizeKeeps(domain[n].fields);
        var last := JObj(NormalizeBlock(domain[n].fields));
        assert out == Kept(domain[..n]) + [last] && out[..|out| - 1] == Kept(domain[..n]);
        CallIdKept(domain[n]);
      } else {
        assert out == Kept(domain[..n]);
        assert CallId(domain[n]) == [];
      }
    }
  }

  lemma CallIdKept(block: Json)
    requires Sendable(block)
    ensures CallId(JObj(NormalizeBlock(block.fields))) == CallId(block)
    ensures Sendable(JObj(NormalizeBlock(block.fields)))
  {
    NormalizeKeeps(block.fields);
    if IsType(block, "tool_use") {
      assert "id" in TOOL_CALL_FIELDS && "name" in TOOL_CALL_FIELDS;
    }
    hide NormalizeBlock;
  }

  /** Replay drops no call, and a step that has been replayed once is sent unchanged ever after. */
  lemma ReplayIsStable(content: seq<Json>)
    ensures Calls(ReplaySpec(content)) == Calls(content)
    ensures ReplaySpec(ReplaySpec(content)) == ReplaySpec(content)
  {
    KeptKeepsCalls(ToDomainBlocks(content));
    assert !IsChatCompletionsMessage(ReplaySpec(content));
  }

  lemma {:induction false} OwnFormKept(content: seq<Json>)
    requires forall i :: 0 <= i < |content| ==> Sendable(content[i]) && content[i] == JObj(NormalizeBlock(content[i].fields))
    ensures Kept(content) == content
    decreases |content|
  {
    hide NormalizeBlock, Sendable;
    if content != [] {
      OwnFormKept(content[..|content| - 1]);
      assert content == content[..|content| - 1] + [content[|content| - 1]];
    }
  }

  /** Blocks of our own form, already normalized, replay as they are stored. */
  lemma OwnFormUnchanged(content: seq<Json>)
    requires forall i :: 0 <= i < |content| ==> Sendable(content[i]) && content[i] == JObj(NormalizeBlock(content[i].fields))
    ensures ReplaySpec(content) == content
  {
    hide NormalizeBlock, Kept, FromChatCompletions;
    OwnFormKept(content);
    assert content != [] ==> TypeName(content[0]).Some?;
  }

  // ----- What of a block is sent, type by type -----

  function Only(o: Object, keys: set<string>): Object {
    map k | k in o && k in keys :: o[k]
  }

  lemma {:induction false} KeptOne(o: Object)
    ensures Kept([JObj(o)]) == if Sendable(JObj(o)) then [JObj(NormalizeBlock(o))] else []
  {
    assert [JObj(o)][..0] == [];
  }

  /** A block of a type with an allowlist is sent with exactly the fields of that type that it has: */
  lemma TextIsSent(o: Object)
    requires Get(o, "type") == JStr("text")
    ensures Kept([JObj(o)]) == [JObj(Only(o, {"type", "text"}))]
  {
    KeptOne(o);
  }

  lemma ThinkingIsSent(o: Object)
    requires Get(o, "type") == JStr("thinking") || Get(o, "type") == JStr("redacted_thinking")
    ensures Kept([JObj(o)]) ==
            [JObj(Only(o, if Get(o, "type") == JStr("thinking") then {"type", "thinking", "signature"} else {"type", "data"}))]
  {
    KeptOne(o);
  }

  lemma MediaIsSent(o: Object)
    requires Get(o, "type") == JStr("image") || Get(o, "type") == JStr("document")
    ensures Kept([JObj(o)]) == [JObj(Only(o, {"type", "source"}))]
  {
    KeptOne(o);
  }

  lemma CallIsSent(o: Object)
    requires Get(o, "type") == JStr("tool_use") || Get(o, "type") == JStr("server_tool_use")
    ensures Kept([JObj(o)]) == [JObj(Only(o, {"type", "id", "name", "input"}))]
  {
    KeptOne(o);
  }

  lemma SearchResultIsSent(o: Object)
    requires Get(o, "type") == JStr("web_search_tool_result")
    ensures Kept([JObj(o)]) == [JObj(Only(o, {"type", "tool_use_id", "content"}))]
  {
    KeptOne(o);
  }

  /** another type of the provider's input schema loses nulls and the annotation `caller`; */
  lemma OthersAreSent(o: Object, name: string)
    requires Get(o, "type") == JStr(name)
    requires name in {"search_result", "tool_result", "web_fetch_tool_result", "code_execution_tool_result",
                      "bash_code_execution_tool_result", "text_editor_code_execution_tool_result", "mcp_tool_use",
                      "mcp_tool_result", "container_upload"}
    ensures |Kept([JObj(o)])| == 1 && Kept([JObj(o)])[0].JObj?
    ensures forall k :: k in Kept([JObj(o)])[0].fields <==> k in o && k != "caller" && o[k] != JNull
    ensures forall k :: k in Kept([JObj(o)])[0].fields ==> Kept([JObj(o)])[0].fields[k] == o[k]
  {
    KeptOne(o);
  }

  /** and a type outside that schema, or no type, is not sent. */
  lemma ForeignIsDropped(o: Object)
    requires Get(o, "type").JStr? ==>
               Get(o, "type").s !in {"text", "image", "document", "search_result", "tool_use", "tool_result", "thinking",
                                     "redacted_thinking", "server_tool_use", "web_search_tool_result", "web_fetch_tool_result",
                                     "code_execution_tool_result", "bash_code_execution_tool_result",
                                     "text_editor_code_execution_tool_result", "mcp_tool_use", "mcp_tool_result", "container_upload"}
    ensures Kept([JObj(o)]) == []
  {
    KeptOne(o);
  }

  /** Steps are sent block by block, in order. */
  lemma {:induction false} KeptConcat(a: seq<Json>, b: seq<Json>)
    ensures Kept(a + b) == Kept(a) + Kept(b)
    decreases |b|
  {
    hide Sendable, NormalizeBlock;
    if b == [] {
      assert a + b == a;
    } else {
      assert (a + b)[..|a + b| - 1] == a + b[..|b| - 1];
      KeptConcat(a, b[..|b| - 1]);
    }
  }

  // ----- The words of a step -----

  /** The words of a text block. */
  function WordsOf(block: Json): seq<string> {
    if block.JObj? && Get(block.fields, "type") == JStr("text") && Get(block.fields, "text").JStr?
    then [Get(block.fields, "text").s] else []
  }

  function Words(blocks: seq<Json>): seq<string> {
    if blocks == [] then [] else Words(blocks[..|blocks| - 1]) + WordsOf(blocks[|blocks| - 1])
  }

  /** The words of a stored step: of a chat-completions message its text, or its text parts, as far as they are
      not empty; else of its text blocks. */
  function StoredWords(content: seq<Json>): seq<string> {
    if |content| == 1 && content[0].JObj? && Get(content[0].fields, "role") == JStr("assistant") && "type" !in content[0].fields then
      match Get(content[0].fields, "content")
      case JStr(s) => if s == "" then [] else [s]
      case JArr(parts) => NotEmpty(Words(parts))
      case _ => []
    else Words(content)
  }

  function NotEmpty(words: seq<string>): seq<string> {
    if words == [] then [] else NotEmpty(words[..|words| - 1]) + if words[|words| - 1] == "" then [] else [words[|words| - 1]]
  }

  lemma {:induction false} WordsConcat(a: seq<Json>, b: seq<Json>)
    ensures Words(a + b) == Words(a) + Words(b)
    decreases |b|
  {
    if b == [] {
      assert a + b == a;
    } else {
      assert (a + b)[..|a + b| - 1] == a + b[..|b| - 1];
      WordsConcat(a, b[..|b| - 1]);
    }
  }

  lemma {:induction false} NotEmptyConcat(a: seq<string>, b: seq<string>)
    ensures NotEmpty(a + b) == NotEmpty(a) + NotEmpty(b)
    decreases |b|
  {
    if b == [] {
      assert a + b == a;
    } else {
      assert (a + b)[..|a + b| - 1] == a + b[..|b| - 1];
      NotEmptyConcat(a, b[..|b| - 1]);
    }
  }

  lemma OneWord(block: Json)
    ensures Words([block]) == WordsOf(block)
  {
    assert [block][..0] == [];
  }

  lemma WordKept(block: Json)
    ensures Words(Kept([block])) == WordsOf(block)
  {
    assert [block][..0] == [];
    if Sendable(block) {
      OneWord(JObj(NormalizeBlock(block.fields)));
      if WordsOf(block) != [] {
        TextIsSent(block.fields);
      } else {
        NormalizeKeeps(block.fields);
      }
    }
  }

  lemma {:induction false} KeptKeepsWords(domain: seq<Json>)
    ensures Words(Kept(domain)) == Words(domain)
    decreases |domain|
  {
    if domain != [] {
      var n := |domain| - 1;
      KeptKeepsWords(domain[..n]);
      KeptConcat(domain[..n], [domain[n]]);
      assert domain == domain[..n] + [domain[n]];
      WordsConcat(Kept(domain[..n]), Kept([domain[n]]));
      WordKept(domain[n]);
    }
  }

  function Blocked(words: seq<string>): seq<Json> {
    seq(|words|, i requires 0 <= i < |words| => Text(words[i]))
  }

  lemma FirstPart(parts: seq<Json>)
    requires parts != []
    ensures TextParts(parts) == Blocked(NotEmpty(WordsOf(parts[0]))) + TextParts(parts[1..])
    ensures Words(Blocked(NotEmpty(WordsOf(parts[0])))) == NotEmpty(WordsOf(parts[0]))
  {
    OneNotEmpty();
    var head := NotEmpty(WordsOf(parts[0]));
    if head != [] {
      assert head == [Get(parts[0].fields, "text").s];
      assert Blocked(head) == [Text(head[0])];
      OneWord(Text(head[0]));
    } else {
      assert Blocked(head) == [];
    }
  }

  lemma {:induction false} PartsKeepWords(parts: seq<Json>)
    ensures Words(TextParts(parts)) == NotEmpty(Words(parts))
  {
    if parts != [] {
      PartsKeepWords(parts[1..]);
      FirstPart(parts);
      OneWord(parts[0]);
      hide *;
      assert parts == [parts[0]] + parts[1..];
      WordsConcat([parts[0]], parts[1..]);
      NotEmptyConcat(WordsOf(parts[0]), Words(parts[1..]));
      WordsConcat(Blocked(NotEmpty(WordsOf(parts[0]))), TextParts(parts[1..]));
    }
  }

  lemma OneNotEmpty()
    ensures NotEmpty([]) == [] && forall w :: NotEmpty([w]) == if w == "" then [] else [w]
  {
    forall w ensures NotEmpty([w]) == if w == "" then [] else [w] {
      assert [w][..0] == [];
    }
  }

  lemma {:induction false} CallsHaveNoWords(calls: seq<Json>)
    ensures Words(CallBlocks(calls)) == []
  {
    if calls != [] {
      CallsHaveNoWords(calls[1..]);
      var all, rest := CallBlocks(calls), CallBlocks(calls[1..]);
      if all != rest {
        assert all == [all[0]] + rest && IsType(all[0], "tool_use");
        WordsConcat([all[0]], rest);
        OneWord(all[0]);
      }
    }
  }

  lemma MessageKeepsWords(message: Object)
    ensures Words(FromChatCompletions(message)) ==
            match Get(message, "content")
            case JStr(s) => (if s == "" then [] else [s])
            case JArr(parts) => NotEmpty(Words(parts))
            case _ => []
  {
    hide TextParts, CallBlocks;
    var text := Get(message, "content");
    var calls := Get(message, "tool_calls");
    var said := if text.JStr? then (if text.s != "" then [Text(text.s)] else [])
                else if text.JArr? then TextParts(text.items) else [];
    var made := if calls.JArr? then CallBlocks(calls.items) else [];
    WordsConcat(said, made);
    if calls.JArr? {
      CallsHaveNoWords(calls.items);
    }
    if text.JStr? && text.s != "" {
      OneWord(Text(text.s));
    } else if text.JArr? {
      PartsKeepWords(text.items);
    }
  }

  /** The words of a step, in whatever form it is stored, are sent, all of them and in order. */
  lemma WordsAreSent(content: seq<Json>)
    ensures Words(ReplaySpec(content)) == StoredWords(content)
  {
    KeptKeepsWords(ToDomainBlocks(content));
    if IsChatCompletionsMessage(content) {
      MessageKeepsWords(content[0].fields);
    }
    hide Kept, Words, FromChatCompletions;
  }

  lemma MessageBlocks(message: Object, said: string, calls: seq<Json>)
    requires Get(message, "role") == JStr("assistant") && "type" !in message
    requires Get(message, "content") == JStr(said) && said != "" && Get(message, "tool_calls") == JArr(calls)
    ensures ToDomainBlocks([JObj(message)]) == [Text(said)] + CallBlocks(calls)
  {
  }

  /** A chat-completions message with words and calls is sent as one text block and one `tool_use` for each
      call, in order, with the call's id and name and the object its arguments decode to. */
  lemma ChatCompletionsAreSent(message: Object, said: string, calls: seq<Json>, sent: seq<Json>, arguments: seq<string>)
    requires Get(message, "role") == JStr("assistant") && "type" !in message
    requires Get(message, "content") == JStr(said) && said != "" && Get(message, "tool_calls") == JArr(calls)
    requires |calls| == |sent| == |arguments| && forall i :: 0 <= i < |arguments| ==> Strip(arguments[i]) != ""
    requires forall i :: 0 <= i < |calls| ==>
               && calls[i].JObj? && Get(calls[i].fields, "function").JObj?
               && var f := Get(calls[i].fields, "function").fields;
                  && Get(f, "name").JStr? && Get(f, "arguments") == JStr(arguments[i])
                  && sent[i] == JObj(map["type" := JStr("tool_use"), "id" := Get(calls[i].fields, "id"),
                                         "name" := Get(f, "name"), "input" := JDecoded(arguments[i])])
    ensures ReplaySpec([JObj(message)]) == [JObj(map["type" := JStr("text"), "text" := JStr(said)])] + sent
  {
    hide Strip;
    MessageBlocks(message, said, calls);
    CallsBecomeBlocks(calls, sent, arguments);
    hide ToDomainBlocks, CallBlocks, Kept;
    OwnBlocks([Text(said)] + sent);
  }

  lemma {:induction false} CallsBecomeBlocks(calls: seq<Json>, sent: seq<Json>, arguments: seq<string>)
    requires |calls| == |sent| == |arguments| && forall i :: 0 <= i < |arguments| ==> Strip(arguments[i]) != ""
    requires forall i :: 0 <= i < |calls| ==>
               && calls[i].JObj? && Get(calls[i].fields, "function").JObj?
               && var f := Get(calls[i].fields, "function").fields;
                  && Get(f, "name").JStr? && Get(f, "arguments") == JStr(arguments[i])
                  && sent[i] == ToolUse(Get(calls[i].fields, "id"), Get(f, "name").s, JDecoded(arguments[i]))
    ensures CallBlocks(calls) == sent
  {
    hide Strip;
    if calls != [] {
      CallsBecomeBlocks(calls[1..], sent[1..], arguments[1..]);
      assert sent == [sent[0]] + sent[1..];
    }
  }

  lemma {:induction false} OwnBlocks(blocks: seq<Json>)
    requires forall i :: 0 <= i < |blocks| ==>
               blocks[i].JObj?
               && ((blocks[i].fields.Keys == {"type", "text"} && Get(blocks[i].fields, "type") == JStr("text"))
                   || (blocks[i].fields.Keys == TOOL_CALL_FIELDS && Get(blocks[i].fields, "type") == JStr("tool_use")))
    ensures Kept(blocks) == blocks
    decreases |blocks|
  {
    if blocks != [] {
      var n := |blocks| - 1;
      OwnBlocks(blocks[..n]);
      assert blocks == blocks[..n] + [blocks[n]];
      KeptConcat(blocks[..n], [blocks[n]]);
      var o := blocks[n].fields;
      if Get(o, "type") == JStr("text") {
        TextIsSent(o);
        assert Only(o, {"type", "text"}) == o;
      } else {
        CallIsSent(o);
        assert Only(o, {"type", "id", "name", "input"}) == o;
      }
    }
  }
}
