/** Stored steps become a neutral history in which every superseded tool call is closed, so that what is
    rendered from it pairs calls with results. */
module SupersededCalls {
  import opened Base
  import opened Blocks
  import opened History

  /** What the provider is told about a call that was never answered. */
  const MISSING: Outcome := Failed(Some("Результат инструмента не получен."))

  /** The nearest user step at or after `i`; the length stands for none. */
  function NextUser(steps: seq<Message>, i: nat): (n: nat)
    requires i <= |steps|
    ensures i <= n <= |steps| && (n < |steps| ==> steps[n].UserMessage?)
    ensures forall j :: i <= j < n ==> !steps[j].UserMessage?
    decreases |steps| - i
  {
    if i == |steps| || steps[i].UserMessage? then i else NextUser(steps, i + 1)
  }

  predicate IsResultOf(step: Message, id: string) {
    step.ToolMessage? && step.id == id
  }

  /** The real result of the call is still to come before that user step. */
  predicate Pending(steps: seq<Message>, index: nat, id: string)
    requires index <= |steps|
  {
    exists j :: index < j < NextUser(steps, index) && IsResultOf(steps[j], id)
  }

  function Without(open: seq<string>, id: string): seq<string> {
    if open == [] then []
    else Without(open[..|open| - 1], id) + if open[|open| - 1] == id then [] else [open[|open| - 1]]
  }

  /** The open calls whose result is pending, or is not. */
  function OpenCalls(steps: seq<Message>, index: nat, open: seq<string>, pending: bool): seq<string>
    requires index <= |steps|
  {
    if open == [] then []
    else OpenCalls(steps, index, open[..|open| - 1], pending)
         + if Pending(steps, index, open[|open| - 1]) == pending then [open[|open| - 1]] else []
  }

  function Synthetic(ids: seq<string>): seq<Message> {
    seq(|ids|, i requires 0 <= i < |ids| => ToolMessage(ids[i], MISSING))
  }

  datatype Progress = Progress(messages: seq<Message>, open: seq<string>, closed: set<string>)

  function CloseSpec(steps: seq<Message>, index: nat, p: Progress): Progress
    requires index <= |steps|
  {
    if NextUser(steps, index) == |steps| then p
    else
      var lost := OpenCalls(steps, index, p.open, false);
      Progress(p.messages + Synthetic(lost), OpenCalls(steps, index, p.open, true), p.closed + set id | id in lost)
  }

  function NextProgress(steps: seq<Message>, index: nat, p: Progress): Progress
    requires index < |steps|
  {
    var step := steps[index];
    match step
    case ToolMessage(id, _) =>
      if id in p.closed then p else p.(messages := p.messages + [step], open := Without(p.open, id))
    case UserMessage(_) =>
      var q := CloseSpec(steps, index, p);
      q.(messages := q.messages + [step])
    case AssistantMessage(content) =>
      var q := CloseSpec(steps, index, p);
      q.(messages := q.messages + [step], open := q.open + Calls(content))
  }

  function After(steps: seq<Message>, i: nat): Progress
    requires i <= |steps|
  {
    if i == 0 then Progress([], [], {}) else NextProgress(steps, i - 1, After(steps, i - 1))
  }

  function HistorySpec(steps: seq<Message>): seq<Message> {
    After(steps, |steps|).messages
  }

  /** For each step the nearest user step at or after it, found from the end. */
  method NextUsers(steps: seq<Message>) returns (nextUser: seq<nat>)
    ensures |nextUser| == |steps| && forall j :: 0 <= j < |steps| ==> nextUser[j] == NextUser(steps, j)
  {
    var next := new nat[|steps|];
    var upcoming := |steps|;
    var i := |steps|;
    while i > 0
      invariant 0 <= i <= |steps|
      invariant upcoming == NextUser(steps, i)
      invariant forall j :: i <= j < |steps| ==> next[j] == NextUser(steps, j)
    {
      i := i - 1;
      if steps[i].UserMessage? {
        upcoming := i;
      }
      next[i] := upcoming;
    }
    nextUser := next[..];
  }

  type Indices = map<string, seq<nat>>

  /** The positions of each id's results among the first `i` steps. */
  predicate IndexedTo(steps: seq<Message>, i: nat, indices: Indices)
    requires i <= |steps|
  {
    && (forall id :: id in indices ==>
          forall x :: 0 <= x < |indices[id]| ==> indices[id][x] < i && IsResultOf(steps[indices[id][x]], id))
    && (forall j :: 0 <= j < i && steps[j].ToolMessage? ==> steps[j].id in indices && j in indices[steps[j].id])
  }

  method ToolIndices(steps: seq<Message>) returns (indices: Indices)
    ensures IndexedTo(steps, |steps|, indices)
  {
    indices := map[];
    for i := 0 to |steps|
      invariant IndexedTo(steps, i, indices)
    {
      if steps[i].ToolMessage? {
        var id := steps[i].id;
        var known := if id in indices then indices[id] else [];
        indices := indices[id := known + [i]];
        assert (known + [i])[|known|] == i;
        assert forall j :: j in known ==> j in known + [i];
      }
    }
  }

  lemma PendingByIndex(steps: seq<Message>, index: nat, id: string, indices: Indices)
    requires index <= |steps| && IndexedTo(steps, |steps|, indices)
    ensures Pending(steps, index, id) <==>
            id in indices && exists x :: 0 <= x < |indices[id]| && index < indices[id][x] < NextUser(steps, index)
  {
    if Pending(steps, index, id) {
      var j :| index < j < NextUser(steps, index) && IsResultOf(steps[j], id);
      assert j in indices[id];
      var x :| 0 <= x < |indices[id]| && indices[id][x] == j;
    }
    if id in indices {
      if x :| 0 <= x < |indices[id]| && index < indices[id][x] < NextUser(steps, index) {
        assert IsResultOf(steps[indices[id][x]], id);
      }
    }
  }

  method CloseSuperseded(steps: seq<Message>, index: nat, user: nat, indices: Indices, p: Progress)
    returns (q: Progress)
    requires index < |steps| && user == NextUser(steps, index) && IndexedTo(steps, |steps|, indices)
    ensures q == CloseSpec(steps, index, p)
  {
    if user == |steps| {
      return p;
    }
    hide Pending, IndexedTo;
    var stillOpen: seq<string> := [];
    var closed := p.closed;
    var messages := p.messages;
    ghost var lost: seq<string> := [];
    for k := 0 to |p.open|
      invariant stillOpen == OpenCalls(steps, index, p.open[..k], true)
      invariant lost == OpenCalls(steps, index, p.open[..k], false)
      invariant messages == p.messages + Synthetic(lost)
      invariant closed == p.closed + set id | id in lost
    {
      assert p.open[..k + 1][..k] == p.open[..k];
      var id := p.open[k];
      PendingByIndex(steps, index, id, indices);
      if id in indices && exists x :: 0 <= x < |indices[id]| && index < indices[id][x] < user {
        stillOpen := stillOpen + [id];
        continue;
      }
      closed := closed + {id};
      messages := messages + [ToolMessage(id, MISSING)];
      lost := lost + [id];
      assert Synthetic(lost) == Synthetic(lost[..|lost| - 1]) + [ToolMessage(id, MISSING)];
    }
    assert p.open[..|p.open|] == p.open;
    q := Progress(messages, stillOpen, closed);
  }

  method NeutralHistoryFromSteps(steps: seq<Message>) returns (history: seq<Message>)
    ensures history == HistorySpec(steps)
  {
    hide CloseSpec, IndexedTo, Without, Calls, NextUser;
    var nextUser := NextUsers(steps);
    var indices := ToolIndices(steps);
    var p := Progress([], [], {});
    for index := 0 to |steps|
      invariant p == After(steps, index)
    {
      var step := steps[index];
      if step.ToolMessage? {
        if step.id in p.closed {
          continue;
        }
        p := p.(open := Without(p.open, step.id), messages := p.messages + [step]);
      } else {
        var q := CloseSuperseded(steps, index, nextUser[index], indices, p);
        p := q.(messages := q.messages + [step]);
        if step.AssistantMessage? {
          p := p.(open := p.open + Calls(step.content));
        }
      }
    }
    history := p.messages;
  }

  // ----- What is kept -----

  function Turns(messages: seq<Message>): seq<Message> {
    if messages == [] then []
    else Turns(messages[..|messages| - 1])
         + if messages[|messages| - 1].ToolMessage? then [] else [messages[|messages| - 1]]
  }

  lemma {:induction false} TurnsAppend(a: seq<Message>, b: seq<Message>)
    ensures Turns(a + b) == Turns(a) + Turns(b)
    decreases |b|
  {
    if b == [] {
      assert a + b == a;
    } else {
      TurnsAppend(a, b[..|b| - 1]);
      assert (a + b)[..|a + b| - 1] == a + b[..|b| - 1];
    }
  }

  lemma {:induction false} NoTurnsInResults(messages: seq<Message>)
    requires forall i :: 0 <= i < |messages| ==> messages[i].ToolMessage?
    ensures Turns(messages) == []
    decreases |messages|
  {
    if messages != [] {
      NoTurnsInResults(messages[..|messages| - 1]);
    }
  }

  lemma CloseTurns(steps: seq<Message>, i: nat, p: Progress)
    requires i < |steps|
    ensures Turns(CloseSpec(steps, i, p).messages) == Turns(p.messages)
  {
    hide Turns, OpenCalls;
    var synthetic := Synthetic(OpenCalls(steps, i, p.open, false));
    NoTurnsInResults(synthetic);
    TurnsAppend(p.messages, synthetic);
  }

  lemma StepTurns(steps: seq<Message>, i: nat, p: Progress)
    requires i < |steps|
    ensures Turns(NextProgress(steps, i, p).messages) == Turns(p.messages) + Turns([steps[i]])
  {
    OneTurn(steps[i]);
    CloseTurns(steps, i, p);
    hide Turns, CloseSpec, Without, Calls;
    TurnsAppend(p.messages, [steps[i]]);
    TurnsAppend(CloseSpec(steps, i, p).messages, [steps[i]]);
  }

  /** Closing only adds and drops results: what users and assistants said is the stored history, in order. */
  lemma {:induction false} TurnsAreKept(steps: seq<Message>, i: nat)
    requires i <= |steps|
    ensures Turns(After(steps, i).messages) == Turns(steps[..i])
  {
    if i > 0 {
      TurnsAreKept(steps, i - 1);
      assert steps[..i] == steps[..i - 1] + [steps[i - 1]];
      TurnsAppend(steps[..i - 1], [steps[i - 1]]);
      StepTurns(steps, i - 1, After(steps, i - 1));
      hide Turns, NextProgress;
    }
  }

  lemma OneTurn(m: Message)
    ensures Turns([m]) == if m.ToolMessage? then [] else [m]
  {
    assert [m][..0] == [];
  }

  // ----- Calls are their ids -----

  predicate NoRepeats(ids: seq<string>) {
    forall i, j :: 0 <= i < j < |ids| ==> ids[i] != ids[j]
  }

  /** Providers never reuse a call id. */
  ghost predicate DistinctCalls(steps: seq<Message>) {
    && (forall a :: 0 <= a < |steps| && steps[a].AssistantMessage? ==> NoRepeats(Calls(steps[a].content)))
    && (forall a: nat, b: nat, id :: MadeAt(steps, a, id) && MadeAt(steps, b, id) ==> a == b)
  }

  predicate MadeAt(steps: seq<Message>, a: nat, id: string) {
    a < |steps| && steps[a].AssistantMessage? && id in Calls(steps[a].content)
  }

  lemma NoRepeatsConcat(a: seq<string>, b: seq<string>)
    requires NoRepeats(a) && NoRepeats(b) && forall x :: x in a ==> x !in b
    ensures NoRepeats(a + b)
  {
    var all := a + b;
    forall i, j | 0 <= i < j < |all| ensures all[i] != all[j] {
      if i < |a| <= j { assert all[i] in a && all[j] in b; }
    }
  }

  lemma OneNoRepeat(id: string)
    ensures NoRepeats([id])
  {
  }

  lemma NoRepeatsLast(open: seq<string>)
    requires open != [] && NoRepeats(open)
    ensures NoRepeats(open[..|open| - 1]) && open[|open| - 1] !in open[..|open| - 1]
    ensures open == open[..|open| - 1] + [open[|open| - 1]]
  {
  }

  lemma {:induction false} WithoutIn(open: seq<string>, id: string)
    requires NoRepeats(open)
    ensures NoRepeats(Without(open, id))
    ensures forall x :: x in Without(open, id) <==> x in open && x != id
    decreases |open|
  {
    if open != [] {
      NoRepeatsLast(open);
      WithoutIn(open[..|open| - 1], id);
      OneNoRepeat(open[|open| - 1]);
      hide NoRepeats;
      NoRepeatsConcat(Without(open[..|open| - 1], id), [open[|open| - 1]]);
    }
  }

  lemma {:induction false} OpenCallsIn(steps: seq<Message>, index: nat, open: seq<string>, pending: bool)
    requires index <= |steps| && NoRepeats(open)
    ensures NoRepeats(OpenCalls(steps, index, open, pending))
    ensures forall x :: x in OpenCalls(steps, index, open, pending) <==> x in open && Pending(steps, index, x) == pending
    decreases |open|
  {
    hide Pending;
    if open != [] {
      NoRepeatsLast(open);
      OpenCallsIn(steps, index, open[..|open| - 1], pending);
      OneNoRepeat(open[|open| - 1]);
      hide NoRepeats;
      NoRepeatsConcat(OpenCalls(steps, index, open[..|open| - 1], pending), [open[|open| - 1]]);
    }
  }

  /** The call was made by an earlier step. */
  ghost predicate Known(steps: seq<Message>, i: nat, id: string) {
    exists a: nat :: a < i && MadeAt(steps, a, id)
  }

  predicate NoResultIn(steps: seq<Message>, a: nat, i: nat, id: string)
    requires i <= |steps|
  {
    forall t :: a < t < i ==> !IsResultOf(steps[t], id)
  }

  /** And no result of it has come since. */
  ghost predicate Unanswered(steps: seq<Message>, i: nat, id: string)
    requires i <= |steps|
  {
    exists a: nat :: a < i && MadeAt(steps, a, id) && NoResultIn(steps, a, i, id)
  }

  lemma KnownLater(steps: seq<Message>, i: nat)
    ensures forall id :: Known(steps, i, id) ==> Known(steps, i + 1, id)
  {
    hide MadeAt;
  }

  lemma UnansweredLater(steps: seq<Message>, i: nat, id: string)
    requires i < |steps| && Unanswered(steps, i, id) && !IsResultOf(steps[i], id)
    ensures Unanswered(steps, i + 1, id)
  {
    hide MadeAt;
    var a: nat :| a < i && MadeAt(steps, a, id) && NoResultIn(steps, a, i, id);
    assert NoResultIn(steps, a, i + 1, id);
  }

  lemma CallsAreNew(steps: seq<Message>, i: nat, id: string)
    requires i < |steps| && DistinctCalls(steps) && MadeAt(steps, i, id)
    ensures !Known(steps, i, id) && Known(steps, i + 1, id) && Unanswered(steps, i + 1, id)
  {
    assert NoResultIn(steps, i, i + 1, id);
    hide MadeAt;
  }

  /** Open and closed calls were made by earlier steps, are different calls, and the open ones are unanswered. */
  ghost predicate Sound(steps: seq<Message>, i: nat, p: Progress)
    requires i <= |steps|
  {
    && NoRepeats(p.open)
    && (forall id :: id in p.open ==> id !in p.closed && Unanswered(steps, i, id))
    && (forall id :: id in p.open || id in p.closed ==> Known(steps, i, id))
  }

  lemma CloseMeaning(steps: seq<Message>, i: nat, p: Progress)
    requires i < |steps| && NoRepeats(p.open)
    ensures var q := CloseSpec(steps, i, p);
            && NoRepeats(q.open)
            && (forall id :: id in q.open <==> id in p.open && (NextUser(steps, i) < |steps| ==> Pending(steps, i, id)))
            && (forall id :: id in q.closed <==> id in p.closed || (id in p.open && id !in q.open))
  {
    OpenCallsIn(steps, i, p.open, true);
    OpenCallsIn(steps, i, p.open, false);
    hide OpenCalls, Pending, Synthetic, NoRepeats;
  }

  lemma TurnKeepsSound(steps: seq<Message>, i: nat, p: Progress)
    requires i < |steps| && !steps[i].ToolMessage? && Sound(steps, i, p)
    ensures Sound(steps, i + 1, CloseSpec(steps, i, p))
    ensures forall id :: id in CloseSpec(steps, i, p).open || id in CloseSpec(steps, i, p).closed ==> Known(steps, i, id)
  {
    CloseMeaning(steps, i, p);
    KnownLater(steps, i);
    hide CloseSpec, Pending, NoRepeats, Known, Unanswered;
    forall id | id in CloseSpec(steps, i, p).open ensures Unanswered(steps, i + 1, id) {
      UnansweredLater(steps, i, id);
    }
  }

  lemma AddCallsSound(steps: seq<Message>, i: nat, q: Progress)
    requires i < |steps| && steps[i].AssistantMessage? && DistinctCalls(steps) && Sound(steps, i + 1, q)
    requires forall id :: id in q.open || id in q.closed ==> Known(steps, i, id)
    ensures Sound(steps, i + 1, q.(messages := q.messages + [steps[i]], open := q.open + Calls(steps[i].content)))
  {
    var calls := Calls(steps[i].content);
    assert NoRepeats(calls);
    hide Known, Unanswered, NoRepeats, Calls, DistinctCalls;
    forall id | id in calls ensures id !in q.open && id !in q.closed && Known(steps, i + 1, id) && Unanswered(steps, i + 1, id) {
      assert MadeAt(steps, i, id);
      CallsAreNew(steps, i, id);
    }
    NoRepeatsConcat(q.open, calls);
  }

  lemma ResultKeepsSound(steps: seq<Message>, i: nat, p: Progress, id: string)
    requires i < |steps| && Sound(steps, i, p) && IsResultOf(steps[i], id)
    ensures Sound(steps, i + 1, NextProgress(steps, i, p))
  {
    WithoutIn(p.open, id);
    KnownLater(steps, i);
    hide Without, Known, Unanswered, NoRepeats;
    forall x | x in NextProgress(steps, i, p).open ensures Unanswered(steps, i + 1, x) {
      UnansweredLater(steps, i, x);
    }
  }

  lemma StepKeepsSound(steps: seq<Message>, i: nat, p: Progress)
    requires i < |steps| && DistinctCalls(steps) && Sound(steps, i, p)
    ensures Sound(steps, i + 1, NextProgress(steps, i, p))
  {
    hide Known, Unanswered, NoRepeats, DistinctCalls, CloseSpec;
    match steps[i] {
      case ToolMessage(id, _) =>
        ResultKeepsSound(steps, i, p, id);
      case UserMessage(_) =>
        TurnKeepsSound(steps, i, p);
      case AssistantMessage(content) =>
        TurnKeepsSound(steps, i, p);
        AddCallsSound(steps, i, CloseSpec(steps, i, p));
    }
  }

  lemma {:induction false} StaysSound(steps: seq<Message>, i: nat)
    requires i <= |steps| && DistinctCalls(steps)
    ensures Sound(steps, i, After(steps, i))
  {
    EmptySound(steps);
    hide Sound, NextProgress, DistinctCalls;
    if i > 0 {
      StaysSound(steps, i - 1);
      StepKeepsSound(steps, i - 1, After(steps, i - 1));
    }
  }

  lemma EmptySound(steps: seq<Message>)
    ensures Sound(steps, 0, Progress([], [], {}))
  {
  }

  // ----- Nothing superseded, nothing changed -----

  /** The call is superseded: a user step follows its step, and no result of it comes before that. */
  predicate Superseded(steps: seq<Message>, a: nat, id: string)
    requires a < |steps|
  {
    MadeAt(steps, a, id) && NextUser(steps, a) < |steps| && NoResultIn(steps, a, NextUser(steps, a), id)
  }

  lemma {:induction false} SameNextUser(steps: seq<Message>, a: nat, b: nat)
    requires a <= b <= |steps| && forall j :: a <= j < b ==> !steps[j].UserMessage?
    ensures NextUser(steps, a) == NextUser(steps, b)
    decreases b - a
  {
    if a < b {
      SameNextUser(steps, a + 1, b);
    }
  }

  /** An unanswered call at a boundary is either superseded or its result is still to come. */
  lemma NotSupersededIsPending(steps: seq<Message>, i: nat, id: string)
    requires i < |steps| && !steps[i].ToolMessage? && Unanswered(steps, i, id) && NextUser(steps, i) < |steps|
    requires forall a: nat :: a < |steps| ==> !Superseded(steps, a, id)
    ensures Pending(steps, i, id)
  {
    hide MadeAt;
    var a: nat :| a < i && MadeAt(steps, a, id) && NoResultIn(steps, a, i, id);
    assert !Superseded(steps, a, id);
    UserAfter(steps, a, i);
    hide Superseded;
    var t :| a < t < NextUser(steps, a) && IsResultOf(steps[t], id);
    assert t > i;
    SameNextUser(steps, a, i);
  }

  lemma UserAfter(steps: seq<Message>, a: nat, i: nat)
    requires a <= i < |steps| && NextUser(steps, i) < |steps|
    ensures NextUser(steps, a) <= NextUser(steps, i)
  {
  }

  /** A history without superseded calls is replayed exactly as it is stored. */
  lemma {:induction false} NothingSupersededIsKept(steps: seq<Message>, i: nat)
    requires i <= |steps| && DistinctCalls(steps)
    requires forall a: nat, id :: a < |steps| ==> !Superseded(steps, a, id)
    ensures After(steps, i).messages == steps[..i] && After(steps, i).closed == {}
  {
    hide DistinctCalls, Superseded, NextProgress, Sound;
    if i > 0 {
      NothingSupersededIsKept(steps, i - 1);
      StaysSound(steps, i - 1);
      assert steps[..i] == steps[..i - 1] + [steps[i - 1]];
      NothingLost(steps, i - 1, After(steps, i - 1));
    }
  }

  lemma SomeMember(ids: seq<string>)
    requires ids != []
    ensures exists id :: id in ids
  {
    assert ids[0] in ids;
  }

  lemma NothingLost(steps: seq<Message>, i: nat, p: Progress)
    requires i < |steps| && Sound(steps, i, p) && p.closed == {}
    requires forall a: nat, id :: a < |steps| ==> !Superseded(steps, a, id)
    ensures NextProgress(steps, i, p).messages == p.messages + [steps[i]] && NextProgress(steps, i, p).closed == {}
  {
    hide Superseded, Known, Unanswered, NoRepeats, Calls, Without;
    if !steps[i].ToolMessage? && NextUser(steps, i) < |steps| {
      OpenCallsIn(steps, i, p.open, false);
      hide OpenCalls, Pending;
      forall id | id in p.open ensures Pending(steps, i, id) {
        NotSupersededIsPending(steps, i, id);
      }
      var lost := OpenCalls(steps, i, p.open, false);
      if lost != [] {
        SomeMember(lost);
        assert false;
      }
    }
  }

  /** A closed call is told as an error that says the result never came. */
  lemma ClosedIsAnError(id: string)
    ensures var block := ResultBlock(id, MISSING).fields;
            && block["is_error"] == JBool(true) && block["tool_use_id"] == JStr(id)
            && block["content"] == JStr("Результат инструмента не получен.")
  {
    ResultIsSent(id, MISSING);
  }
}
