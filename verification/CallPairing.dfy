/** From stored steps to the wire: every tool call before the last user step is answered in the very next
    turn, by exactly the ids it asked for. */
module CallPairing {
  import opened Base
  import opened Blocks
  import opened History
  import opened SupersededCalls

  predicate AllResults(messages: seq<Message>) {
    forall i :: 0 <= i < |messages| ==> messages[i].ToolMessage?
  }

  function LeadingIds(messages: seq<Message>): seq<string> {
    if messages != [] && messages[0].ToolMessage? then [messages[0].id] + LeadingIds(messages[1..]) else []
  }

  /** One past the last message that is not a result. */
  function LastTurn(messages: seq<Message>): (n: nat)
    ensures n <= |messages| && (n > 0 ==> !messages[n - 1].ToolMessage?)
    ensures forall i :: n <= i < |messages| ==> messages[i].ToolMessage?
  {
    if messages == [] then 0
    else if !messages[|messages| - 1].ToolMessage? then |messages|
    else LastTurn(messages[..|messages| - 1])
  }

  lemma LastTurnIs(messages: seq<Message>, n: nat)
    requires n <= |messages| && (n > 0 ==> !messages[n - 1].ToolMessage?)
    requires forall i :: n <= i < |messages| ==> messages[i].ToolMessage?
    ensures LastTurn(messages) == n
  {
    var m := LastTurn(messages);
    if m < n {
      assert false;
    }
  }

  lemma {:induction false} LeadingConcat(a: seq<Message>, b: seq<Message>)
    ensures LeadingIds(a + b) == LeadingIds(a) + (if AllResults(a) then LeadingIds(b) else [])
  {
    if a == [] {
      assert a + b == b;
    } else if a[0].ToolMessage? {
      LeadingConcat(a[1..], b);
      assert (a + b)[1..] == a[1..] + b;
      assert AllResults(a) <==> AllResults(a[1..]) by {
        assert forall i :: 0 <= i < |a| - 1 ==> a[1..][i] == a[i + 1];
        assert forall i :: 1 <= i < |a| ==> a[i] == a[1..][i - 1];
      }
    }
  }

  lemma {:induction false} LeadingSynthetic(ids: seq<string>)
    ensures LeadingIds(Synthetic(ids)) == ids && AllResults(Synthetic(ids))
  {
    if ids != [] {
      LeadingSynthetic(ids[1..]);
      assert Synthetic(ids)[1..] == Synthetic(ids[1..]);
    }
  }

  lemma {:induction false} LeadingAll(messages: seq<Message>)
    requires AllResults(messages)
    ensures |LeadingIds(messages)| == |messages|
    ensures forall i :: 0 <= i < |messages| ==> LeadingIds(messages)[i] == messages[i].id
  {
    if messages != [] {
      LeadingAll(messages[1..]);
    }
  }

  function CallsOf(m: Message): seq<string> {
    if m.AssistantMessage? then Calls(m.content) else []
  }

  // ----- Order of stored steps -----

  /** Every stored result has a call before it, and no call has two. */
  ghost predicate Recorded(steps: seq<Message>) {
    && (forall t :: 0 <= t < |steps| && steps[t].ToolMessage? ==> exists a: nat :: a < t && MadeAt(steps, a, steps[t].id))
    && (forall t, u :: 0 <= t < u < |steps| && steps[t].ToolMessage? && steps[u].ToolMessage? ==> steps[t].id != steps[u].id)
  }

  /** Once a user has spoken after a call, its stored result either came with its turn (only results in
      between) or comes too late (after that user step). */
  ghost predicate WellOrdered(steps: seq<Message>) {
    && Recorded(steps)
    && (forall t :: 0 <= t < |steps| && steps[t].ToolMessage? ==> Placed(steps, t, steps[t].id))
  }

  ghost predicate Placed(steps: seq<Message>, t: nat, id: string)
    requires t < |steps|
  {
    exists a: nat :: a < t && MadeAt(steps, a, id) && InPlace(steps, a, t)
  }

  predicate InPlace(steps: seq<Message>, a: nat, t: nat)
    requires a < t < |steps|
  {
    AllResults(steps[a + 1..t]) || NextUser(steps, a) < t || NextUser(steps, a) == |steps|
  }

  /** The result of a call of the turn before a boundary does not come before the next user step. */
  lemma NotInTime(steps: seq<Message>, i: nat, b: nat, t: nat, id: string)
    requires WellOrdered(steps) && DistinctCalls(steps) && MadeAt(steps, b, id)
    requires b < i < t < |steps| && !steps[i].ToolMessage? && IsResultOf(steps[t], id)
    requires NextUser(steps, b) == NextUser(steps, i) < |steps|
    ensures NextUser(steps, i) < t
  {
    assert Placed(steps, t, id);
    var a: nat :| a < t && MadeAt(steps, a, id) && InPlace(steps, a, t);
    assert a == b;
    hide MadeAt;
    assert steps[b + 1..t][i - b - 1] == steps[i];
  }

  /** At a boundary no open call of the turn before it is still to be answered in time. */
  lemma NothingPending(steps: seq<Message>, i: nat, b: nat, id: string)
    requires WellOrdered(steps) && DistinctCalls(steps)
    requires b < i < |steps| && !steps[i].ToolMessage? && AllResults(steps[b + 1..i]) && MadeAt(steps, b, id)
    requires NextUser(steps, i) < |steps|
    ensures !Pending(steps, i, id)
  {
    hide MadeAt, WellOrdered, DistinctCalls;
    MadeByAssistant(steps, b, id);
    assert forall j :: b < j < i ==> steps[j] == steps[b + 1..i][j - b - 1];
    SameNextUser(steps, b, i);
    forall t | i < t < NextUser(steps, i) ensures !IsResultOf(steps[t], id) {
      if IsResultOf(steps[t], id) {
        NotInTime(steps, i, b, t, id);
      }
    }
  }

  lemma MadeByAssistant(steps: seq<Message>, a: nat, id: string)
    requires MadeAt(steps, a, id)
    ensures a < |steps| && steps[a].AssistantMessage?
  {
    hide Calls;
  }

  lemma {:induction false} AllLost(steps: seq<Message>, i: nat, open: seq<string>)
    requires i <= |steps| && forall id :: id in open ==> !Pending(steps, i, id)
    ensures OpenCalls(steps, i, open, false) == open && OpenCalls(steps, i, open, true) == []
    decreases |open|
  {
    hide Pending, NextUser, IsResultOf;
    if open != [] {
      var rest, last := open[..|open| - 1], open[|open| - 1];
      assert open == rest + [last];
      assert last in open;
      AllLost(steps, i, rest);
      assert OpenCalls(steps, i, open, false) == OpenCalls(steps, i, rest, false) + [last];
      assert OpenCalls(steps, i, open, true) == OpenCalls(steps, i, rest, true) + [];
    }
  }

  lemma {:induction false} WithoutOne(open: seq<string>, id: string)
    requires NoRepeats(open)
    ensures multiset(Without(open, id)) == multiset(open) - multiset{id}
    decreases |open|
  {
    if open != [] {
      var last := open[|open| - 1];
      NoRepeatsLast(open);
      WithoutOne(open[..|open| - 1], id);
      hide NoRepeats;
      assert multiset(open) == multiset(open[..|open| - 1]) + multiset{last};
    }
  }

  // ----- The invariant -----

  predicate AnsweredAt(messages: seq<Message>, k: nat)
    requires k < |messages|
  {
    messages[k].AssistantMessage? ==> multiset(LeadingIds(messages[k + 1..])) == multiset(Calls(messages[k].content))
  }

  predicate AnsweredBefore(messages: seq<Message>, n: nat)
    requires n <= |messages|
  {
    forall k :: 0 <= k && k + 1 < n ==> AnsweredAt(messages, k)
  }

  /** What is appended does not reach a turn that another turn follows. */
  lemma AnsweredLater(messages: seq<Message>, n: nat, k: nat, more: seq<Message>)
    requires k + 1 < n <= |messages| && !messages[n - 1].ToolMessage?
    ensures AnsweredAt(messages + more, k) <==> AnsweredAt(messages, k)
  {
    hide Calls;
    assert (messages + more)[k + 1..] == messages[k + 1..] + more;
    LeadingConcat(messages[k + 1..], more);
    assert messages[k + 1..][n - 1 - (k + 1)] == messages[n - 1];
  }

  lemma AnsweredBeforeLater(messages: seq<Message>, n: nat, more: seq<Message>)
    requires n <= |messages| && (n > 0 ==> !messages[n - 1].ToolMessage?) && AnsweredBefore(messages, n)
    ensures AnsweredBefore(messages + more, n)
  {
    hide AnsweredAt;
    forall k | 0 <= k && k + 1 < n ensures AnsweredAt(messages + more, k) {
      AnsweredLater(messages, n, k, more);
    }
  }

  /** The last turn of the history is the last turn of the steps; its calls are answered or open; every
      earlier turn is answered in full. */
  ghost predicate Paired(steps: seq<Message>, i: nat, p: Progress)
    requires i <= |steps|
  {
    var n := LastTurn(p.messages);
    var b := LastTurn(steps[..i]);
    && (b == 0 <==> n == 0) && (b == 0 ==> p.messages == [] && p.open == [])
    && AnsweredBefore(p.messages, n)
    && (b > 0 ==>
          && p.messages[n - 1] == steps[b - 1]
          && multiset(LeadingIds(p.messages[n..])) + multiset(p.open) == multiset(CallsOf(steps[b - 1])))
  }

  /** Every call made so far is open, closed, or has its result among the steps. */
  ghost predicate Accounted(steps: seq<Message>, i: nat, p: Progress)
    requires i <= |steps|
  {
    forall a: nat, id :: a < i && MadeAt(steps, a, id) && NoResultIn(steps, a, i, id) ==> id in p.open || id in p.closed
  }

  lemma StepAccounts(steps: seq<Message>, i: nat, p: Progress)
    requires i < |steps| && Accounted(steps, i, p) && NoRepeats(p.open)
    ensures Accounted(steps, i + 1, NextProgress(steps, i, p))
  {
    var next := NextProgress(steps, i, p);
    if steps[i].ToolMessage? {
      WithoutIn(p.open, steps[i].id);
    } else {
      CloseMeaning(steps, i, p);
    }
    forall a: nat, id | a < i + 1 && MadeAt(steps, a, id) && NoResultIn(steps, a, i + 1, id)
      ensures id in next.open || id in next.closed
    {
      if a < i {
        assert NoResultIn(steps, a, i, id);
        assert !IsResultOf(steps[i], id);
      }
    }
  }

  lemma AppendTurn(messages: seq<Message>, n: nat, turn: Message)
    requires n == LastTurn(messages) && AnsweredBefore(messages, n) && !turn.ToolMessage?
    requires n > 0 && multiset(LeadingIds(messages[n..])) == multiset(CallsOf(messages[n - 1]))
    ensures AnsweredBefore(messages + [turn], |messages| + 1)
  {
    hide Calls, LastTurn, AnsweredAt, LeadingIds, CallsOf;
    var all := messages + [turn];
    AnsweredBeforeLater(messages, n, [turn]);
    LastIsAnswered(messages, n, turn);
    forall k | 0 <= k && k + 1 < |all| ensures AnsweredAt(all, k) {
      if k >= n {
        assert all[k].ToolMessage?;
        NotATurn(all, k);
      }
    }
  }

  lemma LastIsAnswered(messages: seq<Message>, n: nat, turn: Message)
    requires 0 < n <= |messages| && !turn.ToolMessage?
    requires multiset(LeadingIds(messages[n..])) == multiset(CallsOf(messages[n - 1]))
    ensures AnsweredAt(messages + [turn], n - 1)
  {
    hide Calls;
    LeadingConcat(messages[n..], [turn]);
    assert (messages + [turn])[n..] == messages[n..] + [turn];
    assert LeadingIds([turn]) == [];
  }

  lemma NotATurn(messages: seq<Message>, k: nat)
    requires k < |messages| && !messages[k].AssistantMessage?
    ensures AnsweredAt(messages, k)
  {
  }

  lemma AppendResults(messages: seq<Message>, n: nat, results: seq<Message>)
    requires n == LastTurn(messages) && AnsweredBefore(messages, n) && AllResults(results)
    ensures LastTurn(messages + results) == n && AnsweredBefore(messages + results, n)
    ensures LeadingIds((messages + results)[n..]) == LeadingIds(messages[n..]) + LeadingIds(results)
  {
    hide AnsweredBefore;
    var all := messages + results;
    LastTurnIs(all, n);
    assert all[n..] == messages[n..] + results;
    LeadingConcat(messages[n..], results);
    AnsweredBeforeLater(messages, n, results);
  }

  lemma ResultKeepsPaired(steps: seq<Message>, i: nat, p: Progress)
    requires i < |steps| && steps[i].ToolMessage? && WellOrdered(steps)
    requires NoRepeats(p.open) && Accounted(steps, i, p) && Paired(steps, i, p)
    ensures Paired(steps, i + 1, NextProgress(steps, i, p))
  {
    hide CallsOf, LeadingIds, AnsweredBefore, Without, NoRepeats, LastTurn, WellOrdered, Accounted, Calls, CloseSpec;
    var id := steps[i].id;
    assert steps[..i + 1] == steps[..i] + [steps[i]];
    LastTurnIs(steps[..i + 1], LastTurn(steps[..i]));
    if id !in p.closed {
      ResultIsOpen(steps, i, p, id);
      WithoutOne(p.open, id);
      AppendResults(p.messages, LastTurn(p.messages), [steps[i]]);
      OneResult(steps[i]);
      OneMoved(LeadingIds(p.messages[LastTurn(p.messages)..]), p.open, Without(p.open, id), id);
    }
  }

  lemma OneResult(m: Message)
    requires m.ToolMessage?
    ensures LeadingIds([m]) == [m.id]
  {
    assert [m][1..] == [];
  }

  lemma OneMoved(answered: seq<string>, open: seq<string>, rest: seq<string>, id: string)
    requires id in open && multiset(rest) == multiset(open) - multiset{id}
    ensures multiset(answered + [id]) + multiset(rest) == multiset(answered) + multiset(open)
  {
    assert id in multiset(open);
  }

  lemma ResultIsOpen(steps: seq<Message>, i: nat, p: Progress, id: string)
    requires i < |steps| && IsResultOf(steps[i], id) && WellOrdered(steps) && Accounted(steps, i, p) && id !in p.closed
    ensures id in p.open
  {
    hide MadeAt;
    assert steps[i].id == id && Recorded(steps);
    var a: nat :| a < i && MadeAt(steps, a, id);
    assert NoResultIn(steps, a, i, id);
  }

  lemma TurnKeepsPaired(steps: seq<Message>, i: nat, p: Progress)
    requires i < |steps| && !steps[i].ToolMessage? && NextUser(steps, i) < |steps|
    requires WellOrdered(steps) && DistinctCalls(steps) && Paired(steps, i, p)
    ensures Paired(steps, i + 1, NextProgress(steps, i, p))
  {
    hide Paired, WellOrdered, DistinctCalls, OpenCalls, Pending, Calls, Synthetic;
    OpenIsLost(steps, i, p);
    AllLost(steps, i, p.open);
    ClosedTurn(steps, i, p, NextProgress(steps, i, p));
  }

  lemma ClosedTurn(steps: seq<Message>, i: nat, p: Progress, q: Progress)
    requires i < |steps| && !steps[i].ToolMessage? && Paired(steps, i, p)
    requires q.messages == p.messages + Synthetic(p.open) + [steps[i]] && q.open == CallsOf(steps[i])
    ensures Paired(steps, i + 1, q)
  {
    hide CallsOf, AnsweredBefore, LastTurn, Synthetic, LeadingIds;
    var n := LastTurn(p.messages);
    var b := LastTurn(steps[..i]);
    LastTurnIs(steps[..i + 1], i + 1);
    LeadingSynthetic(p.open);
    AppendResults(p.messages, n, Synthetic(p.open));
    var closed := p.messages + Synthetic(p.open);
    LastTurnIs(q.messages, |q.messages|);
    NoneLeading();
    assert q.messages[|q.messages|..] == [];
    if b > 0 {
      assert closed[n - 1] == steps[b - 1];
      AppendTurn(closed, n, steps[i]);
    } else {
      NoSynthetic();
      FirstTurn(q.messages);
    }
  }

  lemma NoneLeading()
    ensures LeadingIds([]) == []
  {
  }

  lemma NoSynthetic()
    ensures Synthetic([]) == []
  {
  }

  lemma FirstTurn(all: seq<Message>)
    requires |all| == 1
    ensures AnsweredBefore(all, 1)
  {
  }

  lemma OpenIsLost(steps: seq<Message>, i: nat, p: Progress)
    requires i < |steps| && !steps[i].ToolMessage? && WellOrdered(steps) && DistinctCalls(steps) && Paired(steps, i, p)
    requires NextUser(steps, i) < |steps|
    ensures forall id :: id in p.open ==> !Pending(steps, i, id)
  {
    hide LeadingIds, WellOrdered, DistinctCalls, Pending, AnsweredBefore, Calls, NextUser, Paired, MadeAt;
    var b := LastTurn(steps[..i]);
    forall id | id in p.open ensures !Pending(steps, i, id) {
      OpenIsMade(steps, i, p, b, id);
      NothingPending(steps, i, b - 1, id);
    }
  }

  lemma OpenIsMade(steps: seq<Message>, i: nat, p: Progress, b: nat, id: string)
    requires i <= |steps| && Paired(steps, i, p) && b == LastTurn(steps[..i]) && id in p.open
    ensures b > 0 && MadeAt(steps, b - 1, id) && AllResults(steps[b..i])
  {
    hide LeadingIds, AnsweredBefore, Calls;
    InTheWhole(LeadingIds(p.messages[LastTurn(p.messages)..]), p.open, CallsOf(steps[b - 1]), id);
    hide LastTurn;
    forall j | 0 <= j < i - b ensures steps[b..i][j].ToolMessage? {
      assert steps[b..i][j] == steps[..i][b + j];
    }
  }

  lemma InTheWhole(answered: seq<string>, open: seq<string>, calls: seq<string>, id: string)
    requires multiset(answered) + multiset(open) == multiset(calls) && id in open
    ensures id in calls
  {
    assert id in multiset(open);
    assert id in multiset(calls);
  }

  lemma {:induction false} StaysPaired(steps: seq<Message>, n: nat, i: nat)
    requires n < |steps| && steps[n].UserMessage? && i <= n + 1 && WellOrdered(steps) && DistinctCalls(steps)
    ensures Paired(steps, i, After(steps, i)) && Accounted(steps, i, After(steps, i))
    decreases i
  {
    EmptyPaired(steps);
    hide Paired, Accounted, WellOrdered, DistinctCalls, NextProgress;
    if i > 0 {
      StaysPaired(steps, n, i - 1);
      StaysSound(steps, i - 1);
      var p := After(steps, i - 1);
      StepAccounts(steps, i - 1, p);
      if steps[i - 1].ToolMessage? {
        ResultKeepsPaired(steps, i - 1, p);
      } else {
        UserAhead(steps, i - 1, n);
        TurnKeepsPaired(steps, i - 1, p);
      }
    }
  }

  lemma EmptyPaired(steps: seq<Message>)
    ensures Paired(steps, 0, Progress([], [], {})) && Accounted(steps, 0, Progress([], [], {}))
  {
    assert steps[..0] == [];
  }

  lemma UserAhead(steps: seq<Message>, i: nat, n: nat)
    requires i <= n < |steps| && steps[n].UserMessage?
    ensures NextUser(steps, i) < |steps|
  {
  }

  // ----- No other order is safe -----

  /** Every turn up to the user step at `n` is answered by the results that follow it at once. */
  predicate AnsweredTo(steps: seq<Message>, n: nat)
    requires n < |steps|
  {
    var m := After(steps, n + 1).messages;
    AnsweredBefore(m, |m|)
  }

  predicate Lacks(messages: seq<Message>, id: string) {
    AllResults(messages) && forall i :: 0 <= i < |messages| ==> !IsResultOf(messages[i], id)
  }

  /** Results that follow a call at once and are not its own do not answer it. */
  lemma {:induction false} OthersFollow(steps: seq<Message>, a: nat, b: nat, id: string) returns (more: seq<Message>)
    requires a < b <= |steps| && AllResults(steps[a + 1..b]) && NoResultIn(steps, a, b, id)
    ensures After(steps, b).messages == After(steps, a + 1).messages + more && Lacks(more, id)
    decreases b
  {
    hide Calls, CloseSpec, Without;
    if b == a + 1 {
      more := [];
    } else {
      assert steps[a + 1..b - 1] == steps[a + 1..b][..b - a - 2];
      more := OthersFollow(steps, a, b - 1, id);
      assert steps[b - 1] == steps[a + 1..b][b - a - 2];
      if steps[b - 1].id !in After(steps, b - 1).closed {
        more := more + [steps[b - 1]];
      }
    }
  }

  lemma {:induction false} KeptOpen(steps: seq<Message>, i: nat, open: seq<string>, id: string)
    requires i <= |steps| && Pending(steps, i, id)
    ensures id !in OpenCalls(steps, i, open, false)
    decreases |open|
  {
    hide Pending;
    if open != [] {
      KeptOpen(steps, i, open[..|open| - 1], id);
    }
  }

  /** At the next turn a call whose result is still to come before the user step is not closed either. */
  lemma TurnPassesIt(steps: seq<Message>, b: nat, p: Progress, id: string) returns (more: seq<Message>)
    requires b < |steps| && !steps[b].ToolMessage? && Pending(steps, b, id)
    ensures NextProgress(steps, b, p).messages == p.messages + more + [steps[b]] && Lacks(more, id)
  {
    hide Calls, Pending;
    if NextUser(steps, b) == |steps| {
      more := [];
    } else {
      KeptOpen(steps, b, p.open, id);
      more := Synthetic(OpenCalls(steps, b, p.open, false));
    }
  }

  lemma NotAnswered(messages: seq<Message>, k: nat, id: string)
    requires k < |messages| && messages[k].AssistantMessage? && id in Calls(messages[k].content)
    requires forall i :: k < i < |messages| ==> !IsResultOf(messages[i], id)
    ensures !AnsweredAt(messages, k)
  {
    hide Calls, LeadingIds;
    var rest := messages[k + 1..];
    LeadingAreResults(rest);
    assert forall i :: 0 <= i < |rest| ==> rest[i] == messages[k + 1 + i];
    assert id in multiset(Calls(messages[k].content)) && id !in multiset(LeadingIds(rest));
  }

  lemma {:induction false} TurnBetween(steps: seq<Message>, a: nat, t: nat) returns (b: nat)
    requires a < t <= |steps| && !AllResults(steps[a + 1..t])
    ensures a < b < t && !steps[b].ToolMessage? && AllResults(steps[a + 1..b])
    decreases t
  {
    if AllResults(steps[a + 1..t - 1]) {
      b := t - 1;
      assert steps[a + 1..t] == steps[a + 1..t - 1] + [steps[t - 1]];
    } else {
      b := TurnBetween(steps, a, t - 1);
    }
  }

  lemma StepMade(steps: seq<Message>, i: nat)
    requires i < |steps|
    ensures After(steps, i + 1) == NextProgress(steps, i, After(steps, i))
    ensures !steps[i].ToolMessage? ==>
              var m := After(steps, i + 1).messages; m != [] && m[|m| - 1] == steps[i]
  {
    hide Calls, CloseSpec;
  }

  lemma OnlyResult(steps: seq<Message>, a: nat, b: nat, t: nat, id: string)
    requires Recorded(steps) && b <= t < |steps| && IsResultOf(steps[t], id)
    ensures NoResultIn(steps, a, b, id)
  {
    hide MadeAt;
  }

  lemma Misplaced(steps: seq<Message>, a: nat, t: nat, id: string) returns (b: nat)
    requires a < t < |steps| && IsResultOf(steps[t], id) && !InPlace(steps, a, t)
    ensures a < b < t && !steps[b].ToolMessage? && AllResults(steps[a + 1..b])
    ensures b < NextUser(steps, a) < |steps| && Pending(steps, b, id)
  {
    b := TurnBetween(steps, a, t);
    var between := steps[a + 1..b];
    assert forall j :: a < j < b ==> steps[j] == between[j - a - 1];
    assert t < NextUser(steps, a) < |steps|;
    hide AllResults, InPlace;
    SameNextUser(steps, a, b);
    hide NextUser;
    assert Pending(steps, b, id);
  }

  /** A result stored behind another turn, with the user still to speak, leaves its call unanswered. */
  lemma MisplacedIsUnanswered(steps: seq<Message>, a: nat, t: nat, id: string)
    requires Recorded(steps) && a < t < |steps| && MadeAt(steps, a, id) && IsResultOf(steps[t], id)
    requires !InPlace(steps, a, t)
    ensures NextUser(steps, a) < |steps| && !AnsweredTo(steps, NextUser(steps, a))
  {
    hide *;
    var b := Misplaced(steps, a, t, id);
    OnlyResult(steps, a, b, t, id);
    OneAtATime(steps, b, id);
    var k := StaysUnanswered(steps, a, b, id);
    NeverAnswered(steps, b, NextUser(steps, a), k);
  }

  lemma OneAtATime(steps: seq<Message>, b: nat, id: string)
    requires b < |steps| && !steps[b].ToolMessage?
    ensures !IsResultOf(steps[b], id)
  {
  }

  lemma NeverAnswered(steps: seq<Message>, b: nat, n: nat, k: nat)
    requires b < n < |steps|
    requires var m := After(steps, b + 1).messages;
             k + 1 < |m| && !m[|m| - 1].ToolMessage? && !AnsweredAt(m, k)
    ensures !AnsweredTo(steps, n)
  {
    hide After, AnsweredAt;
    var m := After(steps, b + 1).messages;
    OnlyGrows(steps, b + 1, n + 1);
    var all := After(steps, n + 1).messages;
    assert all == m + all[|m|..];
    AnsweredLater(m, |m|, k, all[|m|..]);
  }

  /** Past the next turn the call has no result in the history, and none can be added where it belongs. */
  lemma StaysUnanswered(steps: seq<Message>, a: nat, b: nat, id: string) returns (k: nat)
    requires a < b < |steps| && MadeAt(steps, a, id) && AllResults(steps[a + 1..b]) && NoResultIn(steps, a, b, id)
    requires !steps[b].ToolMessage? && !IsResultOf(steps[b], id) && Pending(steps, b, id)
    ensures var m := After(steps, b + 1).messages;
            k + 1 < |m| && !m[|m| - 1].ToolMessage? && !AnsweredAt(m, k)
  {
    hide Calls, NextUser, After, AnsweredAt, NextProgress, Pending, LeadingIds, NoResultIn;
    var more := OthersFollow(steps, a, b, id);
    var rest := TurnPassesIt(steps, b, After(steps, b), id);
    StepMade(steps, a);
    StepMade(steps, b);
    var made := After(steps, a + 1).messages;
    assert After(steps, b + 1).messages == made + (more + rest + [steps[b]]);
    k := |made| - 1;
    NotAnswered(After(steps, b + 1).messages, k, id);
  }

  /** Which histories are safe: with one result at most per call, stored behind it, every turn before every
      user step is answered at once iff each result is in its place. */
  lemma OrderIsExact(steps: seq<Message>)
    requires Recorded(steps) && DistinctCalls(steps)
    ensures WellOrdered(steps) <==> forall n :: 0 <= n < |steps| && steps[n].UserMessage? ==> AnsweredTo(steps, n)
  {
    hide Recorded, DistinctCalls, AnsweredBefore, After, InPlace, MadeAt;
    if WellOrdered(steps) {
      forall n | 0 <= n < |steps| && steps[n].UserMessage? ensures AnsweredTo(steps, n) {
        AnsweredToUser(steps, n);
      }
    } else {
      var t :| 0 <= t < |steps| && steps[t].ToolMessage? && !Placed(steps, t, steps[t].id);
      var a := Caller(steps, t);
      MisplacedIsUnanswered(steps, a, t, steps[t].id);
    }
  }

  lemma Caller(steps: seq<Message>, t: nat) returns (a: nat)
    requires Recorded(steps) && t < |steps| && steps[t].ToolMessage?
    ensures a < t && MadeAt(steps, a, steps[t].id)
  {
    a :| a < t && MadeAt(steps, a, steps[t].id);
  }

  /** Such a history exists: a second assistant turn stands between a call and its result. */
  lemma MisplacedExample()
    ensures var steps := [AssistantMessage([ToolUse(JStr("a"), "search", JObj(map[]))]), AssistantMessage([]),
                          ToolMessage("a", MISSING), UserMessage([Text("next")])];
            Recorded(steps) && DistinctCalls(steps) && !AnsweredTo(steps, 3)
  {
    var called := AssistantMessage([ToolUse(JStr("a"), "search", JObj(map[]))]);
    var steps := [called, AssistantMessage([]), ToolMessage("a", MISSING), UserMessage([Text("next")])];
    OneCall();
    assert Calls([]) == [];
    hide Calls;
    OnlyCall(steps, "a");
    assert NextUser(steps, 2) == 3 && NextUser(steps, 0) == NextUser(steps, 1);
    assert steps[0 + 1..2][0] == steps[1];
    hide AnsweredTo, Recorded, MadeAt, DistinctCalls;
    assert !InPlace(steps, 0, 2);
    hide NextUser, InPlace;
    MisplacedIsUnanswered(steps, 0, 2, "a");
  }

  lemma OnlyCall(steps: seq<Message>, id: string)
    requires |steps| == 4 && steps[0].AssistantMessage? && steps[1].AssistantMessage? && IsResultOf(steps[2], id)
    requires steps[3].UserMessage? && Calls(steps[0].content) == [id] && Calls(steps[1].content) == []
    ensures Recorded(steps) && DistinctCalls(steps) && MadeAt(steps, 0, id)
  {
    hide Calls;
    assert MadeAt(steps, 0, id);
    assert forall a: nat, other :: MadeAt(steps, a, other) ==> a == 0 && other == id;
  }

  lemma OneCall()
    ensures Calls([ToolUse(JStr("a"), "search", JObj(map[]))]) == ["a"]
  {
    var content := [ToolUse(JStr("a"), "search", JObj(map[]))];
    assert content[..0] == [];
    assert CallIds(content[..0]) == [];
    assert CallId(content[0]) == ["a"];
  }

  // ----- On the wire -----

  /** The id a tool_result block answers. */
  function AnswerId(block: Json): Option<string> {
    if IsType(block, "tool_result") && Get(block.fields, "tool_use_id").JStr? then Some(Get(block.fields, "tool_use_id").s)
    else None
  }

  function AnswerIds(blocks: seq<Json>): seq<Option<string>> {
    seq(|blocks|, i requires 0 <= i < |blocks| => AnswerId(blocks[i]))
  }

  function Ids(ids: seq<string>): seq<Option<string>> {
    seq(|ids|, i requires 0 <= i < |ids| => Some(ids[i]))
  }

  /** An assistant turn with calls is followed at once by a user turn that starts with one result for each
      of its calls and for nothing else. */
  predicate AnsweredOnWire(wire: seq<Wire>, at: nat)
    requires at < |wire|
  {
    var calls := Calls(wire[at].content);
    wire[at].role == Assistant && calls != [] ==>
      && at + 1 < |wire| && wire[at + 1].role == User && |calls| <= |wire[at + 1].content|
      && multiset(AnswerIds(wire[at + 1].content[..|calls|])) == multiset(Ids(calls))
  }

  lemma {:induction false} LeadingAreResults(messages: seq<Message>)
    ensures |LeadingIds(messages)| <= |messages|
    ensures forall i :: 0 <= i < |LeadingIds(messages)| ==>
              messages[i].ToolMessage? && messages[i].id == LeadingIds(messages)[i]
  {
    if messages != [] && messages[0].ToolMessage? {
      LeadingAreResults(messages[1..]);
    }
  }

  lemma {:induction false} OnlyGrows(steps: seq<Message>, i: nat, j: nat)
    requires i <= j <= |steps|
    ensures After(steps, i).messages <= After(steps, j).messages
    decreases j
  {
    hide Calls, OpenCalls, Without;
    if i < j {
      OnlyGrows(steps, i, j - 1);
    }
  }

  /** Up to a user step, the history answers every turn. */
  lemma AnsweredToUser(steps: seq<Message>, n: nat)
    requires n < |steps| && steps[n].UserMessage? && WellOrdered(steps) && DistinctCalls(steps)
    ensures var m := After(steps, n + 1).messages;
            m != [] && m[|m| - 1] == steps[n] && AnsweredBefore(m, |m|)
  {
    hide WellOrdered, DistinctCalls, After, Calls, LeadingIds, AnsweredBefore;
    StaysPaired(steps, n, n + 1);
    var m := After(steps, n + 1).messages;
    LastTurnIs(steps[..n + 1], n + 1);
    LeadingAll(m[LastTurn(m)..]);
    assert CallsOf(steps[n]) == [];
    var leading := LeadingIds(m[LastTurn(m)..]);
    NoMembers(leading, After(steps, n + 1).open);
    assert m[LastTurn(m)..] == [];
  }

  lemma NoMembers(a: seq<string>, b: seq<string>)
    requires multiset(a) + multiset(b) == multiset([])
    ensures a == []
  {
    assert |multiset(a)| == |a|;
    assert |multiset(a) + multiset(b)| == |a| + |b|;
  }

  lemma {:induction false} SameIds(a: seq<string>, b: seq<string>)
    requires multiset(a) == multiset(b)
    ensures multiset(Ids(a)) == multiset(Ids(b))
  {
    forall x: Option<string> ensures multiset(Ids(a))[x] == multiset(Ids(b))[x] {
      IdCount(a, x);
      IdCount(b, x);
    }
  }

  lemma {:induction false} IdCount(ids: seq<string>, x: Option<string>)
    ensures multiset(Ids(ids))[x] == if x.Some? then multiset(ids)[x.value] else 0
    decreases |ids|
  {
    if ids != [] {
      var n := |ids| - 1;
      IdCount(ids[..n], x);
      assert ids == ids[..n] + [ids[n]];
      assert Ids(ids) == Ids(ids[..n]) + [Some(ids[n])];
    }
  }

  lemma ResultIds(run: seq<Message>)
    requires AllResults(run)
    ensures AnswerIds(ResultBlocks(run)) == Ids(LeadingIds(run))
  {
    hide LeadingIds;
    LeadingAll(run);
    forall i | 0 <= i < |run| ensures AnswerIds(ResultBlocks(run))[i] == Ids(LeadingIds(run))[i] {
      assert AnswerId(ResultBlock(run[i].id, run[i].outcome)) == Some(run[i].id);
    }
  }

  lemma NoCallsInNothing(content: seq<Json>)
    requires Calls(content) != []
    ensures ReplaySpec(content) != [] && Calls(ReplaySpec(content)) == Calls(content)
  {
    ReplayIsStable(content);
    assert Calls([]) == [];
    hide ReplaySpec, Calls;
  }

  lemma RunFollows(messages: seq<Message>, k: nat) returns (run: seq<Message>)
    requires k < |messages| && messages[k].AssistantMessage? && AnsweredAt(messages, k)
    ensures var c := |Calls(messages[k].content)|; k + c < |messages| && run == messages[k + 1..k + c + 1]
    ensures AllResults(run) && multiset(LeadingIds(run)) == multiset(Calls(messages[k].content))
  {
    hide Calls, LeadingIds;
    var calls := Calls(messages[k].content);
    var rest := messages[k + 1..];
    LeadingAreResults(rest);
    assert |multiset(calls)| == |calls| && |multiset(LeadingIds(rest))| == |LeadingIds(rest)|;
    LeadingPrefix(rest, |calls|);
    run := messages[k + 1..k + |calls| + 1];
    assert run == rest[..|calls|];
  }

  lemma OnWire(wire: seq<Wire>, at: nat, run: seq<Message>)
    requires at + 1 < |wire| && wire[at + 1].role == User && AllResults(run)
    requires ResultBlocks(run) <= wire[at + 1].content
    requires |run| == |Calls(wire[at].content)| && multiset(LeadingIds(run)) == multiset(Calls(wire[at].content))
    ensures AnsweredOnWire(wire, at)
  {
    hide Calls, LeadingIds, ResultBlocks, AnswerIds, Ids;
    ResultIds(run);
    SameIds(LeadingIds(run), Calls(wire[at].content));
    LengthOf(run);
    assert wire[at + 1].content[..|run|] == ResultBlocks(run);
  }

  lemma RunIsAnswered(messages: seq<Message>, k: nat, run: seq<Message>)
    requires run != [] && k + |run| < |messages| && run == messages[k + 1..k + |run| + 1] && AllResults(run)
    requires messages[k].AssistantMessage? && ReplaySpec(messages[k].content) != []
    ensures var wire := Render(messages); var at := |Render(messages[..k])|;
            && at + 1 < |wire| && wire[at] == Wire(Assistant, ReplaySpec(messages[k].content))
            && wire[at + 1].role == User && ResultBlocks(run) <= wire[at + 1].content
  {
    hide ReplaySpec, Render;
    forall i | k < i <= k + |run| ensures messages[i].ToolMessage? {
      assert messages[i] == run[i - k - 1];
    }
    CallsAreAnswered(messages, k, |run|);
  }

  /** One step's calls, on the wire. */
  lemma AnsweredStepOnWire(messages: seq<Message>, k: nat)
    requires k < |messages| && messages[k].AssistantMessage? && AnsweredAt(messages, k)
    requires Calls(messages[k].content) != []
    ensures |Render(messages[..k])| < |Render(messages)| && AnsweredOnWire(Render(messages), |Render(messages[..k])|)
  {
    hide *;
    NoCallsInNothing(messages[k].content);
    var run := RunFollows(messages, k);
    RunIsAnswered(messages, k, run);
    OnWire(Render(messages), |Render(messages[..k])|, run);
  }

  lemma LengthOf(run: seq<Message>)
    requires AllResults(run)
    ensures |ResultBlocks(run)| == |run|
  {
  }

  lemma LeadingPrefix(messages: seq<Message>, c: nat)
    requires c == |LeadingIds(messages)| <= |messages|
    ensures AllResults(messages[..c]) && LeadingIds(messages[..c]) == LeadingIds(messages)
  {
    LeadingAreResults(messages);
    LeadingAll(messages[..c]);
  }

  /** End to end: store the steps in order, close what is superseded, render, and every assistant turn up
      to a user step is answered in the next turn by exactly the calls it made. */
  lemma EveryCallIsAnswered(steps: seq<Message>, n: nat, at: nat)
    requires n < |steps| && steps[n].UserMessage? && WellOrdered(steps) && DistinctCalls(steps)
    requires at < |Render(After(steps, n + 1).messages)|
    ensures at < |Render(HistorySpec(steps))| && AnsweredOnWire(Render(HistorySpec(steps)), at)
  {
    hide WellOrdered, DistinctCalls, After, Calls, LeadingIds, Render, ReplaySpec;
    var m := After(steps, n + 1).messages;
    var history := HistorySpec(steps);
    OnlyGrows(steps, n + 1, |steps|);
    assert m == history[..|m|];
    RenderContinues(history, |m|);
    if Render(history)[at].role == Assistant {
      var k := TurnComesFromStep(m, at);
      assert m[..k] == history[..k];
      AnsweredToUser(steps, n);
      assert k + 1 < |m|;
      var more := history[|m|..];
      assert history == m + more;
      hide AnsweredAt, AnsweredOnWire;
      AnsweredLater(m, |m|, k, more);
      if Calls(history[k].content) != [] {
        AnsweredStepOnWire(history, k);
      } else {
        AssistantTurnIsFinal(history, k);
        ReplayIsStable(history[k].content);
        Silent(Render(history), at);
      }
    } else {
      Silent(Render(history), at);
    }
  }

  lemma Silent(wire: seq<Wire>, at: nat)
    requires at < |wire| && (wire[at].role == User || Calls(wire[at].content) == [])
    ensures AnsweredOnWire(wire, at)
  {
    hide Calls;
  }

  /** The hypotheses hold of the smallest superseded call: a step that calls a tool, and a user who speaks
      again before its result. */
  lemma SupersededExample()
    ensures var steps := [AssistantMessage([ToolUse(JStr("a"), "search", JObj(map[]))]), UserMessage([Text("next")])];
            WellOrdered(steps) && DistinctCalls(steps) && Superseded(steps, 0, "a")
  {
    var content := [ToolUse(JStr("a"), "search", JObj(map[]))];
    var steps := [AssistantMessage(content), UserMessage([Text("next")])];
    OneCall();
    assert NextUser(steps, 1) == 1;
    assert MadeAt(steps, 0, "a");
  }
}
