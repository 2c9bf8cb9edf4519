/** An agent's session and its turns: the history as it is changed in place. */
module AgentSession {
  import opened Options
  import opened History

  const MAX_U64: nat := 0xFFFF_FFFF_FFFF_FFFF

  // ── A turn ──────────────────────────────────────────────────────

  datatype ToolCall = ToolCall(id: string, name: string, input: string)

  /** What comes of one step: the turn is cancelled, the model refuses, its stream breaks off or is
      cancelled after these tokens, or it speaks and its calls are run. */
  datatype Reply =
    | Cancelled | Refused
    | Broken(tokens: nat, stopped: bool)
    | Spoke(text: string, calls: seq<ToolCall>, outputs: seq<string>, tokens: nat)

  datatype Failure = Stopped | MaxSteps | OverBudget | ModelFailed
  datatype Outcome = Done(text: string) | Failed(why: Failure)

  /** The messages and the tokens counted, and how the turn ended. */
  datatype Turn = Turn(messages: seq<Message>, tokens: nat, outcome: Outcome)

  predicate RepliesOk(replies: seq<Reply>) {
    forall i :: 0 <= i < |replies| && replies[i].Spoke? ==> |replies[i].outputs| == |replies[i].calls|
  }

  function AddTokens(used: nat, n: nat): nat {
    if used + n > MAX_U64 then MAX_U64 else used + n
  }

  function CallParts(calls: seq<ToolCall>): (parts: seq<Part>)
    ensures |parts| == |calls| && forall i :: 0 <= i < |calls| ==>
      parts[i] == Call(calls[i].id, calls[i].name, calls[i].input)
  {
    seq(|calls|, i requires 0 <= i < |calls| => Call(calls[i].id, calls[i].name, calls[i].input))
  }

  function AssistantMessage(text: string, calls: seq<ToolCall>): (m: Message)
    ensures m.role.Assistant?
  {
    Message(Assistant, Parts((if text != "" then [Text(text)] else []) + CallParts(calls)))
  }

  function ResultMessage(call: ToolCall, output: string): Message {
    Message(Tool, Parts([Result(call.id, output)]))
  }

  function ResultMessages(calls: seq<ToolCall>, outputs: seq<string>): (ms: seq<Message>)
    requires |outputs| == |calls|
    ensures |ms| == |calls| && forall i :: 0 <= i < |calls| ==> ms[i] == ResultMessage(calls[i], outputs[i])
  {
    seq(|calls|, i requires 0 <= i < |calls| => ResultMessage(calls[i], outputs[i]))
  }

  /** The steps of a turn, until one is the answer or fails. */
  function RunLoop(
    messages: seq<Message>, tokens: nat, replies: seq<Reply>, step: nat, maxSteps: nat, budget: Option<nat>): Turn
    requires RepliesOk(replies)
    decreases |replies|
  {
    if replies == [] || replies[0].Cancelled? then Turn(messages, tokens, Failed(Stopped))
    else if step >= maxSteps then Turn(messages, tokens, Failed(MaxSteps))
    else if budget.Some? && tokens > budget.value then Turn(messages, tokens, Failed(OverBudget))
    else match replies[0]
      case Refused => Turn(messages, tokens, Failed(ModelFailed))
      case Broken(n, stopped) => Turn(messages, AddTokens(tokens, n), Failed(if stopped then Stopped else ModelFailed))
      case Spoke(text, calls, outputs, n) =>
        var spoken := messages + [AssistantMessage(text, calls)];
        if calls == [] then Turn(spoken, AddTokens(tokens, n), Done(text))
        else RunLoop(spoken + ResultMessages(calls, outputs), AddTokens(tokens, n), replies[1..], step + 1, maxSteps,
          budget)
  }

  /** A turn: the user's message and the steps after it; nothing of it when it failed. */
  function TurnOf(
    messages: seq<Message>, tokens: nat, input: string, replies: seq<Reply>, maxSteps: nat, budget: Option<nat>): Turn
    requires RepliesOk(replies)
  {
    var turn := RunLoop(messages + [Message(User, Plain(input))], tokens, replies, 0, maxSteps, budget);
    if turn.outcome.Failed? then turn.(messages := turn.messages[..if |messages| < |turn.messages| then |messages|
      else |turn.messages|]) else turn
  }

  // ── What a turn leaves ──────────────────────────────────────────

  /** A message that is no tool's may follow anything well-formed. */
  lemma Joined(h: seq<Message>, t: seq<Message>)
    requires t == [] || !t[0].role.Tool?
    ensures Sanitize(h + t) == Sanitize(h) + Sanitize(t)
  {
    CutBetweenBlocks(h + t, |h|);
    assert (h + t)[..|h|] == h && (h + t)[|h|..] == t;
  }

  lemma CallsOf(text: string, calls: seq<ToolCall>)
    ensures CallIds(AssistantMessage(text, calls)) == set i | 0 <= i < |calls| :: calls[i].id
    ensures calls != [] || text != "" ==> !Empty(AssistantMessage(text, calls))
  {
    var parts := (if text != "" then [Text(text)] else []) + CallParts(calls);
    var before := if text != "" then 1 else 0;
    forall i | 0 <= i < |calls| ensures Call(calls[i].id, calls[i].name, calls[i].input) in parts {
      assert parts[before + i] == CallParts(calls)[i];
    }
  }

  lemma ResultsAnswer(calls: seq<ToolCall>, outputs: seq<string>)
    requires |outputs| == |calls|
    ensures var tools := ResultMessages(calls, outputs);
      forall i :: 0 <= i < |calls| ==>
        tools[i].role.Tool? && ResultIds(tools[i]) == {calls[i].id} && calls[i].id in ResultsOf(tools)
  {
    var tools := ResultMessages(calls, outputs);
    hide ResultsOf;
    forall i | 0 <= i < |calls|
      ensures tools[i].role.Tool? && ResultIds(tools[i]) == {calls[i].id} && calls[i].id in ResultsOf(tools)
    {
      assert tools[i].content.parts == [Result(calls[i].id, outputs[i])];
      assert Result(calls[i].id, outputs[i]) in tools[i].content.parts;
      ResultIn(tools, i, calls[i].id);
    }
  }

  /** A step's messages are a block: its calls and their results. */
  lemma StepIsBlock(text: string, calls: seq<ToolCall>, outputs: seq<string>)
    requires |outputs| == |calls| && calls != []
    ensures var block := [AssistantMessage(text, calls)] + ResultMessages(calls, outputs);
      Sanitize(block) == block
  {
    var m, tools := AssistantMessage(text, calls), ResultMessages(calls, outputs);
    CallsOf(text, calls);
    ResultsAnswer(calls, outputs);
    assert m.role.Assistant?;
    hide AssistantMessage, ResultsOf, CallIds, ResultIds, Blocks, Sanitize;
    forall i | 0 <= i < |tools| ensures Answers(tools[i], CallIds(m)) {
      assert calls[i].id in ResultIds(tools[i]) * CallIds(m);
    }
    BlocksJoin(m, tools, []);
    assert [m] + tools + [] == [m] + tools;
    NoBlocks();
    IdentityOnBlocks([m] + tools);
  }

  lemma NoBlocks()
    ensures Blocks([])
  {}

  lemma AnswerKept(text: string)
    ensures Sanitize([AssistantMessage(text, [])]) == if text == "" then [] else [AssistantMessage(text, [])]
  {
    var m := AssistantMessage(text, []);
    CallsOf(text, []);
    BlocksJoin(m, [], []);
    assert [m] + [] + [] == [m];
    IdentityOnBlocks([m]);
    if text == "" {
      assert m.content.parts == [];
      assert [m][1..] == [];
    }
  }

  /** A turn's messages without a final answer that is empty. */
  function Answering(turn: Turn): seq<Message>
    requires turn.outcome.Done? && turn.messages != []
  {
    if turn.outcome.text == "" then turn.messages[..|turn.messages| - 1] else turn.messages
  }

  /** The messages a turn added, without a final answer that is empty. */
  function Added(messages: seq<Message>, turn: Turn): seq<Message>
    requires turn.outcome.Done? && |messages| < |turn.messages|
  {
    Answering(turn)[|messages|..]
  }

  /** A turn that went on from a block added the block first. */
  lemma AddedFirst(messages: seq<Message>, block: seq<Message>, turn: Turn, kept: seq<Message>)
    requires turn.outcome.Done? && messages + block <= turn.messages && |messages + block| < |turn.messages|
    ensures Added(messages, turn) == block + Added(messages + block, turn)
    ensures kept + Added(messages, turn) == (kept + block) + Added(messages + block, turn)
  {
    var whole, n := Answering(turn), |messages|;
    assert whole[n..n + |block|] == turn.messages[n..n + |block|] == block;
    assert whole[n..] == whole[n..n + |block|] + whole[n + |block|..];
  }

  /** What the last step of a turn adds. */
  lemma LastAdded(messages: seq<Message>, turn: Turn, text: string)
    requires turn.outcome == Done(text) && turn.messages == messages + [AssistantMessage(text, [])]
    ensures Sanitize(turn.messages) == Sanitize(messages) + Added(messages, turn)
  {
    hide AssistantMessage, Sanitize;
    AnswerKept(text);
    Joined(messages, [AssistantMessage(text, [])]);
    assert Added(messages, turn) == if text == "" then [] else [AssistantMessage(text, [])];
  }

  /** The steps only add messages, and all they add survives normalising, the answer when it is
      empty apart. */
  lemma {:induction false} LoopSurvives(
    messages: seq<Message>, tokens: nat, replies: seq<Reply>, step: nat, maxSteps: nat, budget: Option<nat>)
    requires RepliesOk(replies)
    ensures var turn := RunLoop(messages, tokens, replies, step, maxSteps, budget);
      && messages <= turn.messages
      && (turn.outcome.Done? ==>
          && |turn.messages| > |messages|
          && turn.messages[|turn.messages| - 1] == AssistantMessage(turn.outcome.text, [])
          && Sanitize(turn.messages) == Sanitize(messages) + Added(messages, turn))
    decreases |replies|
  {
    hide AssistantMessage, Sanitize, ResultMessages, Added;
    var turn := RunLoop(messages, tokens, replies, step, maxSteps, budget);
    if replies != [] && replies[0].Spoke? && step < maxSteps && !(budget.Some? && tokens > budget.value) {
      var text, calls, outputs := replies[0].text, replies[0].calls, replies[0].outputs;
      var m := AssistantMessage(text, calls);
      if calls == [] {
        LastAdded(messages, turn, text);
      } else {
        var block := [m] + ResultMessages(calls, outputs);
        StepIsBlock(text, calls, outputs);
        Joined(messages, block);
        assert messages + block == messages + [m] + ResultMessages(calls, outputs);
        LoopSurvives(messages + block, AddTokens(tokens, replies[0].tokens), replies[1..], step + 1, maxSteps, budget);
        if turn.outcome.Done? {
          AddedFirst(messages, block, turn, Sanitize(messages));
        }
      }
    }
  }

  lemma {:induction false} LoopAdds(
    messages: seq<Message>, tokens: nat, replies: seq<Reply>, step: nat, maxSteps: nat, budget: Option<nat>)
    requires RepliesOk(replies)
    ensures messages <= RunLoop(messages, tokens, replies, step, maxSteps, budget).messages
    decreases |replies|
  {
    if replies != [] && replies[0].Spoke? && replies[0].calls != [] && step < maxSteps &&
      !(budget.Some? && tokens > budget.value) {
      var m := messages + [AssistantMessage(replies[0].text, replies[0].calls)] +
        ResultMessages(replies[0].calls, replies[0].outputs);
      LoopAdds(m, AddTokens(tokens, replies[0].tokens), replies[1..], step + 1, maxSteps, budget);
    }
  }

  /** A turn that fails leaves the messages exactly as they were. */
  lemma FailedTurnLeavesNothing(
    messages: seq<Message>, tokens: nat, input: string, replies: seq<Reply>, maxSteps: nat, budget: Option<nat>)
    requires RepliesOk(replies)
    ensures var turn := TurnOf(messages, tokens, input, replies, maxSteps, budget);
      turn.outcome.Failed? ==> turn.messages == messages
  {
    LoopAdds(messages + [Message(User, Plain(input))], tokens, replies, 0, maxSteps, budget);
  }

  lemma UserJoins(messages: seq<Message>, user: Message)
    requires user.role.User?
    ensures Sanitize(messages + [user]) == Sanitize(messages) + [user]
  {
    Joined(messages, [user]);
    assert [user][1..] == [] && Sanitize([user]) == [user];
  }

  lemma DoneTurn(
    messages: seq<Message>, tokens: nat, input: string, replies: seq<Reply>, maxSteps: nat, budget: Option<nat>)
    requires RepliesOk(replies)
    ensures var turn := TurnOf(messages, tokens, input, replies, maxSteps, budget);
      turn.outcome.Done? ==>
        turn == RunLoop(messages + [Message(User, Plain(input))], tokens, replies, 0, maxSteps, budget)
  {
    hide RunLoop;
  }

  /** A turn that succeeds adds the user's message and what answers it, and all of it survives
      normalising, but for a final answer that is empty: whatever the history before was. */
  lemma SuccessfulTurnSurvives(
    messages: seq<Message>, tokens: nat, input: string, replies: seq<Reply>, maxSteps: nat, budget: Option<nat>)
    requires RepliesOk(replies)
    ensures var turn := TurnOf(messages, tokens, input, replies, maxSteps, budget);
      turn.outcome.Done? ==>
        && messages + [Message(User, Plain(input))] <= turn.messages
        && turn.messages[|turn.messages| - 1] == AssistantMessage(turn.outcome.text, [])
        && |turn.messages| > |messages| + 1
        && Sanitize(turn.messages) == Sanitize(messages) + Added(messages, turn)
  {
    hide *;
    var user := Message(User, Plain(input));
    var turn := TurnOf(messages, tokens, input, replies, maxSteps, budget);
    UserJoins(messages, user);
    DoneTurn(messages, tokens, input, replies, maxSteps, budget);
    LoopSurvives(messages + [user], tokens, replies, 0, maxSteps, budget);
    if turn.outcome.Done? {
      AddedFirst(messages, [user], turn, Sanitize(messages));
    }
  }

  /** After a well-formed history a turn that succeeds leaves one, unless its answer is empty. */
  lemma TurnKeepsWellFormed(
    messages: seq<Message>, tokens: nat, input: string, replies: seq<Reply>, maxSteps: nat, budget: Option<nat>)
    requires RepliesOk(replies)
    ensures var turn := TurnOf(messages, tokens, input, replies, maxSteps, budget);
      turn.outcome.Done? ==> (WellFormed(turn.messages) <==> WellFormed(messages) && turn.outcome.text != "")
  {
    hide WellFormed, Sanitize, TurnOf, AssistantMessage;
    var turn := TurnOf(messages, tokens, input, replies, maxSteps, budget);
    SuccessfulTurnSurvives(messages, tokens, input, replies, maxSteps, budget);
    IdentityExactly(messages);
    IdentityExactly(turn.messages);
    if turn.outcome.Done? {
      IdentityOnBlocks(messages);
      assert turn.messages[..|messages|] == messages;
      assert turn.messages == messages + turn.messages[|messages|..];
      assert turn.outcome.text == "" ==> |Sanitize(turn.messages)| < |turn.messages|;
      assert turn.outcome.text != "" ==> Added(messages, turn) == turn.messages[|messages|..];
    }
  }

  // ── Normalising, as it runs ─────────────────────────────────────

  method KeepAnsweredParts(parts: seq<Part>, answered: set<string>) returns (kept: seq<Part>)
    ensures kept == KeepParts(parts, answered)
  {
    kept := [];
    for i := 0 to |parts|
      invariant kept + KeepParts(parts[i..], answered) == KeepParts(parts, answered)
    {
      assert parts[i..][1..] == parts[i + 1..];
      if !(parts[i].Call? && parts[i].id !in answered) { kept := kept + [parts[i]]; }
    }
  }

  method KeepAnsweringTools(block: seq<Message>, answered: set<string>) returns (kept: seq<Message>)
    ensures kept == KeepTools(block, answered)
  {
    kept := [];
    for i := 0 to |block|
      invariant kept + KeepTools(block[i..], answered) == KeepTools(block, answered)
    {
      assert block[i..][1..] == block[i + 1..];
      if ResultIds(block[i]) * answered != {} { kept := kept + [block[i]]; }
    }
  }

  /** What is kept of an assistant and the run of tool messages after it. */
  method KeepBlock(m: Message, block: seq<Message>) returns (kept: seq<Message>)
    ensures kept == Kept(m, block)
  {
    hide KeepTools, KeepParts, CallIds, ResultsOf;
    kept := [];
    var answered := CallIds(m) * ResultsOf(block);
    if m.content.Plain? {
      if m.content.text != "" { kept := [m]; }
    } else {
      var parts := KeepAnsweredParts(m.content.parts, answered);
      if parts != [] { kept := [Message(Assistant, Parts(parts))]; }
    }
    var tools := KeepAnsweringTools(block, answered);
    kept := kept + tools;
  }

  lemma SanitizedEnd()
    ensures Sanitize([]) == []
  {}

  /** What is normalised from message `i` on, when it is no assistant's. */
  lemma OtherFound(h: seq<Message>, i: nat, out: seq<Message>)
    requires i < |h| && !h[i].role.Assistant?
    ensures out + Sanitize(h[i..]) == (out + if h[i].role.Tool? then [] else [h[i]]) + Sanitize(h[i + 1..])
  {
    assert h[i..][0] == h[i] && h[i..][1..] == h[i + 1..];
    assert out + [] == out;
    Appended(out, [h[i]], Sanitize(h[i + 1..]));
  }

  /** What is normalised from an assistant on: of it and the run of tool messages after it, and the
      rest. */
  lemma BlockFound(h: seq<Message>, i: nat, block: seq<Message>, j: nat, out: seq<Message>)
    requires i < j <= |h| && h[i].role.Assistant? && block == h[i + 1..j]
    requires (forall k :: i < k < j ==> h[k].role.Tool?) && (j < |h| ==> !h[j].role.Tool?)
    ensures out + Sanitize(h[i..]) == (out + Kept(h[i], block)) + Sanitize(h[j..])
  {
    hide Kept, Block, After;
    assert h[i..] == [h[i]] + block + h[j..];
    Split(h[i], block, h[j..]);
    assert Sanitize(h[i..]) == Kept(h[i], block) + Sanitize(h[j..]);
    hide Sanitize;
    Appended(out, Kept(h[i], block), Sanitize(h[j..]));
  }

  method SanitizeHistory(msgs: seq<Message>) returns (out: seq<Message>)
    ensures out == Sanitize(msgs)
  {
    hide Kept, Block, After, Sanitize;
    out := [];
    var i := 0;
    assert msgs[0..] == msgs;
    SanitizedEnd();
    while i < |msgs|
      invariant i <= |msgs| && out + Sanitize(msgs[i..]) == Sanitize(msgs)
    {
      var m := msgs[i];
      if !m.role.Assistant? {
        OtherFound(msgs, i, out);
        if !m.role.Tool? { out := out + [m]; }
        i := i + 1;
        continue;
      }
      var block, j := [], i + 1;
      while j < |msgs| && msgs[j].role.Tool?
        invariant i < j <= |msgs| && block == msgs[i + 1..j] && forall k :: i < k < j ==> msgs[k].role.Tool?
      {
        block := block + [msgs[j]];
        j := j + 1;
      }
      BlockFound(msgs, i, block, j, out);
      var kept := KeepBlock(m, block);
      out := out + kept;
      i := j;
    }
    assert msgs[i..] == [];
  }

  /** The view of the history a request is retried with. */
  method CompactRequestHistory(messages: seq<Message>, keep: nat) returns (view: seq<Message>)
    ensures view == Compact(messages, keep)
  {
    var start := if |messages| < keep then 0 else |messages| - keep;
    ghost var first: nat := start;
    while 0 < start < |messages| && messages[start].role.Tool?
      invariant 0 <= start <= |messages| && StartOf(messages, start) == StartOf(messages, first)
      decreases start
    {
      start := start - 1;
    }
    view := SanitizeHistory(messages[start..]);
  }

  // ── The session ─────────────────────────────────────────────────

  class Session {
    var messages: seq<Message>
    var summary: Option<string>
    var tokensUsed: nat

    constructor ()
      ensures messages == [] && summary == None && tokensUsed == 0
    {
      messages, summary, tokensUsed := [], None, 0;
    }

    method Push(m: Message)
      modifies this`messages
      ensures messages == old(messages) + [m]
    {
      messages := messages + [m];
    }

    method TruncateTo(len: nat)
      modifies this`messages
      ensures messages == if len < |old(messages)| then old(messages)[..len] else old(messages)
    {
      if len < |messages| { messages := messages[..len]; }
    }

    /** Keep a summary and the last messages. */
    method Compact(text: string, keep: nat) returns (before: nat, after: nat)
      modifies this`messages, this`summary
      ensures summary == Some(text) && Suffix(messages, old(messages))
      ensures before == |old(messages)| && after == |messages| == if before > keep then keep else before
    {
      before := |messages|;
      summary := Some(text);
      if |messages| > keep { messages := messages[|messages| - keep..]; }
      after := |messages|;
    }

    /** Normalise the history, and drop the messages at its end that nothing answered. */
    method Sanitize() returns (before: nat, after: nat)
      modifies this`messages
      ensures messages <= History.Sanitize(old(messages)) && WellFormed(messages)
      ensures messages == [] || !messages[|messages| - 1].role.User?
      ensures forall i ::
        |messages| <= i < |History.Sanitize(old(messages))| ==> History.Sanitize(old(messages))[i].role.User?
      ensures before == |old(messages)| && after == |messages|
    {
      hide WellFormed, History.Sanitize;
      before := |messages|;
      messages := SanitizeHistory(messages);
      ghost var whole := messages;
      AlwaysWellFormed(old(messages));
      while messages != [] && messages[|messages| - 1].role.User?
        invariant messages <= whole && WellFormed(messages)
        invariant forall i :: |messages| <= i < |whole| ==> whole[i].role.User?
      {
        LastUserDropped(messages);
        messages := messages[..|messages| - 1];
      }
      after := |messages|;
    }

    /** One turn: what it pushed is gone when it failed. */
    method Followup(input: string, replies: seq<Reply>, maxSteps: nat, budget: Option<nat>) returns (outcome: Outcome)
      requires RepliesOk(replies)
      modifies this`messages, this`tokensUsed
      ensures Turn(messages, tokensUsed, outcome) ==
        TurnOf(old(messages), old(tokensUsed), input, replies, maxSteps, budget)
      ensures outcome.Failed? ==> messages == old(messages)
    {
      var before := |messages|;
      Push(Message(User, Plain(input)));
      outcome := Steps(replies, maxSteps, budget);
      LoopAdds(old(messages) + [Message(User, Plain(input))], old(tokensUsed), replies, 0, maxSteps, budget);
      if outcome.Failed? { TruncateTo(before); }
    }

    method Steps(replies: seq<Reply>, maxSteps: nat, budget: Option<nat>) returns (outcome: Outcome)
      requires RepliesOk(replies)
      modifies this`messages, this`tokensUsed
      ensures Turn(messages, tokensUsed, outcome) ==
        RunLoop(old(messages), old(tokensUsed), replies, 0, maxSteps, budget)
    {
      var step := 0;
      while true
        invariant step <= |replies|
        invariant RunLoop(messages, tokensUsed, replies[step..], step, maxSteps, budget) ==
          RunLoop(old(messages), old(tokensUsed), replies, 0, maxSteps, budget)
        decreases |replies| - step
      {
        if step == |replies| || replies[step].Cancelled? { return Failed(Stopped); }
        if step >= maxSteps { return Failed(MaxSteps); }
        if budget.Some? && tokensUsed > budget.value { return Failed(OverBudget); }
        var reply := replies[step];
        assert replies[step..][0] == reply && replies[step..][1..] == replies[step + 1..];
        step := step + 1;
        if reply.Refused? { return Failed(ModelFailed); }
        ghost var heard, used := messages, tokensUsed;
        tokensUsed := AddTokens(tokensUsed, reply.tokens);
        if reply.Broken? { return Failed(if reply.stopped then Stopped else ModelFailed); }
        ghost var spoken := messages + [AssistantMessage(reply.text, reply.calls)];
        Push(AssistantMessage(reply.text, reply.calls));
        if reply.calls == [] { return Done(reply.text); }
        for i := 0 to |reply.calls|
          invariant messages == spoken + ResultMessages(reply.calls, reply.outputs)[..i]
          invariant tokensUsed == AddTokens(used, reply.tokens)
        {
          Push(ResultMessage(reply.calls[i], reply.outputs[i]));
        }
        assert ResultMessages(reply.calls, reply.outputs)[..|reply.calls|] ==
          ResultMessages(reply.calls, reply.outputs);
        assert messages ==
          heard + [AssistantMessage(reply.text, reply.calls)] + ResultMessages(reply.calls, reply.outputs);
        assert replies[step - 1..][0] == reply && replies[step - 1..][1..] == replies[step..];
        LoopStep(heard, used, replies[step - 1..], step - 1, maxSteps, budget);
      }
    }
  }

  /** A step whose calls were run leads to the next. */
  lemma LoopStep(
    messages: seq<Message>, tokens: nat, replies: seq<Reply>, step: nat, maxSteps: nat, budget: Option<nat>)
    requires RepliesOk(replies) && replies != [] && replies[0].Spoke? && replies[0].calls != []
    requires step < maxSteps && !(budget.Some? && tokens > budget.value)
    ensures RunLoop(messages, tokens, replies, step, maxSteps, budget) ==
      RunLoop(messages + [AssistantMessage(replies[0].text, replies[0].calls)] +
        ResultMessages(replies[0].calls, replies[0].outputs),
              AddTokens(tokens, replies[0].tokens), replies[1..], step + 1, maxSteps, budget)
  {}

  lemma LastUserDropped(h: seq<Message>)
    requires WellFormed(h) && h != [] && h[|h| - 1].role.User?
    ensures WellFormed(h[..|h| - 1])
  {
    var front := h[..|h| - 1];
    IdentityExactly(h);
    CutBetweenBlocks(h, |h| - 1);
    var last := h[|h| - 1..];
    assert last[1..] == [] && Sanitize(last) == last;
    assert Sanitize(front) == front;
    IdentityExactly(front);
  }
}
