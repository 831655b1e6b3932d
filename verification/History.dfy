/** The neutral chat history rendered as Anthropic wire messages. */
module History {
  import opened Base
  import opened Blocks

  /** A tool's result; a failure may carry no message. */
  datatype Outcome = Returned(result: Json) | Failed(message: Option<string>)

  datatype Message =
    | UserMessage(content: seq<Json>)
    | AssistantMessage(content: seq<Json>)
    | ToolMessage(id: string, outcome: Outcome)

  datatype Role = User | Assistant

  datatype Wire = Wire(role: Role, content: seq<Json>)

  function ResultBlock(id: string, outcome: Outcome): Json {
    JObj(map[
      "type" := JStr("tool_result"),
      "tool_use_id" := JStr(id),
      "content" := (match outcome
                    case Returned(result) => JDumped(result)
                    case Failed(message) => JStr(if message.Some? then message.value else "tool error")),
      "is_error" := JBool(outcome.Failed?)])
  }

  /** A result goes out as one `tool_result` block for its call: what the tool returned, dumped; or an error,
      marked as such, with its message or a stock text. */
  lemma ResultIsSent(id: string, outcome: Outcome)
    ensures var o := ResultBlock(id, outcome).fields;
            && o.Keys == {"type", "tool_use_id", "content", "is_error"}
            && o["type"] == JStr("tool_result") && o["tool_use_id"] == JStr(id)
            && (o["is_error"] == JBool(true) <==> outcome.Failed?)
            && (o["is_error"] == JBool(false) <==> outcome.Returned?)
            && (outcome.Returned? ==> o["content"] == JDumped(outcome.result))
            && (outcome.Failed? && outcome.message != None ==> o["content"] == JStr(outcome.message.value))
            && (outcome == Failed(None) ==> o["content"] == JStr("tool error"))
  {
  }

  // ----- Rendering -----

  predicate EndsWithUser(out: seq<Wire>) {
    out != [] && out[|out| - 1].role == User
  }

  function AppendUser(out: seq<Wire>, content: seq<Json>): seq<Wire> {
    if EndsWithUser(out) then out[|out| - 1 := Wire(User, out[|out| - 1].content + content)]
    else out + [Wire(User, content)]
  }

  function RenderNext(out: seq<Wire>, m: Message): seq<Wire> {
    match m
    case UserMessage(content) => AppendUser(out, content)
    case ToolMessage(id, outcome) => AppendUser(out, [ResultBlock(id, outcome)])
    case AssistantMessage(content) =>
      if ReplaySpec(content) != [] || content == [] then out + [Wire(Assistant, ReplaySpec(content))] else out
  }

  function Render(messages: seq<Message>): seq<Wire> {
    if messages == [] then [] else RenderNext(Render(messages[..|messages| - 1]), messages[|messages| - 1])
  }

  /** The loop remembers the index of the last user turn it built; a history without ready-made messages
      needs no more than the last turn's role. */
  method BuildProviderMessages(messages: seq<Message>) returns (out: seq<Wire>)
    ensures out == Render(messages)
  {
    hide ReplaySpec, ResultBlock;
    out := [];
    var mergeableUser: Option<nat> := None;
    for i := 0 to |messages|
      invariant out == Render(messages[..i])
      invariant EndsWithUser(out) <==> mergeableUser.Some? && mergeableUser.value == |out| - 1
      invariant mergeableUser.Some? ==> mergeableUser.value < |out| && out[mergeableUser.value].role == User
    {
      assert messages[..i + 1][..i] == messages[..i];
      var m := messages[i];
      if m.AssistantMessage? {
        var replayed := ReplayAssistantBlocks(m.content);
        if replayed != [] || m.content == [] {
          out := out + [Wire(Assistant, replayed)];
        }
      } else {
        var content := if m.UserMessage? then m.content else [ResultBlock(m.id, m.outcome)];
        if mergeableUser.Some? && mergeableUser.value == |out| - 1 {
          var previous := out[mergeableUser.value];
          out := out[mergeableUser.value := Wire(User, previous.content + content)];
        } else {
          out := out + [Wire(User, content)];
          mergeableUser := Some(|out| - 1);
        }
      }
    }
    assert messages[..|messages|] == messages;
  }

  // ----- What rendering preserves -----

  predicate UsersApart(out: seq<Wire>) {
    forall i :: 0 <= i && i + 1 < |out| ==> !(out[i].role == User && out[i + 1].role == User)
  }

  /** No two user turns in a row. */
  lemma {:induction false} NoAdjacentUsers(messages: seq<Message>)
    ensures UsersApart(Render(messages))
  {
    hide RenderNext, UsersApart;
    NoTurns();
    if messages != [] {
      NoAdjacentUsers(messages[..|messages| - 1]);
      NextKeepsApart(Render(messages[..|messages| - 1]), messages[|messages| - 1]);
    }
  }

  lemma NoTurns()
    ensures UsersApart([])
  {
  }

  lemma NextKeepsApart(out: seq<Wire>, m: Message)
    requires UsersApart(out)
    ensures UsersApart(RenderNext(out, m))
  {
    hide ReplaySpec, ResultBlock;
  }

  /** A block together with the side it is said on. */
  function Said(role: Role, content: seq<Json>): seq<(Role, Json)> {
    seq(|content|, i requires 0 <= i < |content| => (role, content[i]))
  }

  function SaidByStep(m: Message): seq<(Role, Json)> {
    match m
    case UserMessage(content) => Said(User, content)
    case ToolMessage(id, outcome) => Said(User, [ResultBlock(id, outcome)])
    case AssistantMessage(content) => Said(Assistant, ReplaySpec(content))
  }

  function SaidBySteps(messages: seq<Message>): seq<(Role, Json)> {
    if messages == [] then [] else SaidBySteps(messages[..|messages| - 1]) + SaidByStep(messages[|messages| - 1])
  }

  function SaidOnWire(out: seq<Wire>): seq<(Role, Json)> {
    if out == [] then [] else SaidOnWire(out[..|out| - 1]) + Said(out[|out| - 1].role, out[|out| - 1].content)
  }

  lemma AppendUserSays(out: seq<Wire>, content: seq<Json>)
    ensures SaidOnWire(AppendUser(out, content)) == SaidOnWire(out) + Said(User, content)
  {
    var n := |out| - 1;
    if EndsWithUser(out) {
      var merged := AppendUser(out, content);
      assert merged[..n] == out[..n];
      assert Said(User, out[n].content + content) == Said(User, out[n].content) + Said(User, content);
    } else {
      assert (out + [Wire(User, content)])[..|out|] == out;
    }
  }

  /** The wire carries the blocks of the steps, each on its side, in the order of the steps: merging turns
      moves, drops and repeats nothing. */
  lemma {:induction false} BlocksArePreserved(messages: seq<Message>)
    ensures SaidOnWire(Render(messages)) == SaidBySteps(messages)
  {
    if messages != [] {
      var before := messages[..|messages| - 1];
      BlocksArePreserved(before);
      hide ReplaySpec, AppendUser;
      match messages[|messages| - 1]
      case UserMessage(content) => AppendUserSays(Render(before), content);
      case ToolMessage(id, outcome) => AppendUserSays(Render(before), [ResultBlock(id, outcome)]);
      case AssistantMessage(content) =>
        assert (Render(before) + [Wire(Assistant, ReplaySpec(content))])[..|Render(before)|] == Render(before);
    }
  }

  // ----- Later steps only extend the last turn -----

  /** `b` continues `a`: same turns, the last one possibly longer, then more turns. */
  predicate Continues(a: seq<Wire>, b: seq<Wire>) {
    && |a| <= |b|
    && forall i :: 0 <= i < |a| ==> b[i].role == a[i].role && a[i].content <= b[i].content
  }

  lemma {:induction false} RenderContinues(messages: seq<Message>, k: nat)
    requires k <= |messages|
    ensures Continues(Render(messages[..k]), Render(messages))
    decreases |messages| - k
  {
    if k == |messages| {
      assert messages[..k] == messages;
    } else {
      RenderContinues(messages, k + 1);
      assert messages[..k + 1][..k] == messages[..k];
      NextContinues(Render(messages[..k]), messages[k]);
      hide RenderNext, Continues;
      Transitive(Render(messages[..k]), Render(messages[..k + 1]), Render(messages));
    }
  }

  lemma NextContinues(out: seq<Wire>, m: Message)
    ensures Continues(out, RenderNext(out, m))
  {
    hide ReplaySpec, ResultBlock;
  }

  lemma Transitive(a: seq<Wire>, b: seq<Wire>, c: seq<Wire>)
    requires Continues(a, b) && Continues(b, c)
    ensures Continues(a, c)
  {
  }

  // ----- Calls and results -----

  function ResultBlocks(run: seq<Message>): seq<Json>
    requires forall i :: 0 <= i < |run| ==> run[i].ToolMessage?
  {
    seq(|run|, i requires 0 <= i < |run| => ResultBlock(run[i].id, run[i].outcome))
  }

  lemma {:induction false} RunRenders(messages: seq<Message>, k: nat, n: nat)
    requires k < k + n < |messages| && messages[k].AssistantMessage?
    requires forall i :: k < i <= k + n ==> messages[i].ToolMessage?
    requires ReplaySpec(messages[k].content) != []
    ensures Render(messages[..k + n + 1]) ==
            Render(messages[..k]) + [Wire(Assistant, ReplaySpec(messages[k].content)),
                                     Wire(User, ResultBlocks(messages[k + 1..k + n + 1]))]
    decreases n
  {
    hide ReplaySpec, ResultBlock;
    var w := Render(messages[..k]);
    var turn := Wire(Assistant, ReplaySpec(messages[k].content));
    assert messages[..k + n + 1][..k + n] == messages[..k + n];
    var last := messages[k + n];
    if n == 1 {
      assert messages[..k + 1][..k] == messages[..k];
      assert Render(messages[..k + 1]) == w + [turn];
      assert messages[k + 1..k + 2] == [last];
      assert ResultBlocks([last]) == [ResultBlock(last.id, last.outcome)];
    } else {
      RunRenders(messages, k, n - 1);
      var run := messages[k + 1..k + n];
      assert messages[k + 1..k + n + 1] == run + [last];
      assert ResultBlocks(run + [last]) == ResultBlocks(run) + [ResultBlock(last.id, last.outcome)];
    }
  }

  /** Results that directly follow their assistant step lead the user turn that directly follows its turn. */
  lemma CallsAreAnswered(messages: seq<Message>, k: nat, n: nat)
    requires k < k + n < |messages| && messages[k].AssistantMessage?
    requires forall i :: k < i <= k + n ==> messages[i].ToolMessage?
    requires ReplaySpec(messages[k].content) != []
    ensures var wire := Render(messages); var at := |Render(messages[..k])|;
            && at + 1 < |wire|
            && wire[at] == Wire(Assistant, ReplaySpec(messages[k].content))
            && wire[at + 1].role == User
            && ResultBlocks(messages[k + 1..k + n + 1]) <= wire[at + 1].content
  {
    hide ReplaySpec, Render;
    RunRenders(messages, k, n);
    RenderContinues(messages, k + n + 1);
    AssistantTurnIsFinal(messages, k);
  }

  /** An assistant turn is never extended. */
  lemma {:induction false} AssistantTurnIsFinal(messages: seq<Message>, k: nat)
    requires k < |messages| && messages[k].AssistantMessage?
    requires ReplaySpec(messages[k].content) != [] || messages[k].content == []
    ensures var wire := Render(messages); var at := |Render(messages[..k])|;
            at < |wire| && wire[at] == Wire(Assistant, ReplaySpec(messages[k].content))
    decreases |messages|
  {
    hide ReplaySpec;
    var n := |messages| - 1;
    if k < n {
      AssistantTurnIsFinal(messages[..n], k);
      assert messages[..n][..k] == messages[..k];
    }
  }

  /** And every assistant turn is the replay of one assistant step. */
  lemma {:induction false} TurnComesFromStep(messages: seq<Message>, at: nat) returns (k: nat)
    requires at < |Render(messages)| && Render(messages)[at].role == Assistant
    ensures k < |messages| && messages[k].AssistantMessage? && |Render(messages[..k])| == at
    ensures ReplaySpec(messages[k].content) != [] || messages[k].content == []
    decreases |messages|
  {
    hide ReplaySpec;
    var n := |messages| - 1;
    if at < |Render(messages[..n])| {
      k := TurnComesFromStep(messages[..n], at);
      assert messages[..n][..k] == messages[..k];
    } else {
      k := n;
    }
  }

  // ----- Extended thinking -----

  predicate OnlyToolResults(w: Wire) {
    w.role == User && w.content != [] && forall i :: 0 <= i < |w.content| ==> IsType(w.content[i], "tool_result")
  }

  predicate StartsThinking(w: Wire) {
    w.content != [] && (IsType(w.content[0], "thinking") || IsType(w.content[0], "redacted_thinking"))
  }

  /** The last `n` turns are runs of tool results, and no more than those. */
  predicate TrailingResults(wire: seq<Wire>, n: nat) {
    && n <= |wire|
    && (forall i :: |wire| - n <= i < |wire| ==> OnlyToolResults(wire[i]))
    && (n < |wire| ==> !OnlyToolResults(wire[|wire| - n - 1]))
  }

  method ThinkingReplayable(wire: seq<Wire>) returns (ok: bool)
    ensures ok <==> forall n: nat :: TrailingResults(wire, n) && 0 < n < |wire| && wire[|wire| - n - 1].role == Assistant ==>
              StartsThinking(wire[|wire| - n - 1])
  {
    var index := |wire| - 1;
    var sawToolResult := false;
    while index >= 0
      invariant -1 <= index < |wire|
      invariant sawToolResult <==> index < |wire| - 1
      invariant forall i :: index < i < |wire| ==> OnlyToolResults(wire[i])
    {
      if OnlyToolResults(wire[index]) {
        sawToolResult := true;
        index := index - 1;
        continue;
      }
      break;
    }
    ghost var n := |wire| - 1 - index;
    assert TrailingResults(wire, n);
    OneTrail(wire, n);
    if !sawToolResult || index < 0 {
      return true;
    }
    var assistant := wire[index];
    if assistant.role != Assistant {
      return true;
    }
    return StartsThinking(assistant);
  }

  lemma OneTrail(wire: seq<Wire>, n: nat)
    requires TrailingResults(wire, n)
    ensures forall m: nat :: TrailingResults(wire, m) ==> m == n
  {
    forall m: nat | TrailingResults(wire, m) ensures m == n {
    }
  }

  /** On a rendered history there is one turn to look at: thinking is off iff the history ends with an
      assistant turn that does not start thinking, followed by one turn of tool results alone. */
  lemma ThinkingOnRendered(messages: seq<Message>)
    ensures var wire := Render(messages);
            (forall n: nat :: TrailingResults(wire, n) && 0 < n < |wire| && wire[|wire| - n - 1].role == Assistant ==>
               StartsThinking(wire[|wire| - n - 1]))
            <==> !(|wire| >= 2 && OnlyToolResults(wire[|wire| - 1]) && !StartsThinking(wire[|wire| - 2]))
  {
    var wire := Render(messages);
    NoAdjacentUsers(messages);
    hide Render;
    if |wire| >= 2 && OnlyToolResults(wire[|wire| - 1]) {
      assert wire[|wire| - 2 + 1].role == User && wire[|wire| - 2].role == Assistant;
      assert TrailingResults(wire, 1);
      OneTrail(wire, 1);
    } else {
      forall n: nat | TrailingResults(wire, n) ensures !(0 < n < |wire|) || n == 0 {
        if 0 < n { assert OnlyToolResults(wire[|wire| - 1]); }
      }
    }
  }

  // ----- Attachments -----

  /** One past the last user turn, or zero. */
  function LastUser(wire: seq<Wire>): (n: nat)
    ensures n <= |wire| && (n > 0 ==> wire[n - 1].role == User)
    ensures forall i :: n <= i < |wire| ==> wire[i].role != User
  {
    if wire == [] then 0
    else if wire[|wire| - 1].role == User then |wire|
    else LastUser(wire[..|wire| - 1])
  }

  function Injected(wire: seq<Wire>, blocks: seq<Json>): seq<Wire> {
    var n := LastUser(wire);
    if blocks == [] then wire
    else if n == 0 then wire + [Wire(User, blocks)]
    else wire[n - 1 := Wire(User, wire[n - 1].content + blocks)]
  }

  /** The request under construction; attachments are added to it in place. */
  class Request {
    var wire: seq<Wire>

    constructor (wire: seq<Wire>)
      ensures this.wire == wire
    {
      this.wire := wire;
    }

    method InjectAttachmentBlocks(blocks: seq<Json>)
      modifies this
      ensures wire == Injected(old(wire), blocks)
    {
      if blocks == [] {
        return;
      }
      var i := |wire|;
      while i > 0
        invariant 0 <= i <= |wire| && wire == old(wire)
        invariant forall j :: i <= j < |wire| ==> wire[j].role != User
      {
        if wire[i - 1].role == User {
          assert LastUser(wire) == i;
          wire := wire[i - 1 := Wire(User, wire[i - 1].content + blocks)];
          return;
        }
        i := i - 1;
      }
      wire := wire + [Wire(User, blocks)];
    }
  }

  /** Attachments are never dropped, go after everything already said in one user turn, and leave the turns
      alternating as they were. */
  lemma InjectionIsTotal(wire: seq<Wire>, blocks: seq<Json>)
    requires UsersApart(wire)
    ensures var after := Injected(wire, blocks);
            && Continues(wire, after) && UsersApart(after)
            && (blocks != [] ==> exists i :: 0 <= i < |after| && after[i].role == User && EndsIn(after[i].content, blocks)
                                             && forall j :: i < j < |after| ==> after[j].role != User)
  {
    var after := Injected(wire, blocks);
    if blocks != [] {
      var n := LastUser(wire);
      var i := if n == 0 then |wire| else n - 1;
      assert after[i].role == User && EndsIn(after[i].content, blocks);
    }
  }

  predicate EndsIn(content: seq<Json>, blocks: seq<Json>) {
    |blocks| <= |content| && content[|content| - |blocks|..] == blocks
  }
}
