/** How a turn ends, what it leaves and what it costs, told without its steps one by one. */
module Turns {
  import opened Options
  import opened History
  import opened AgentSession

  // ── What a message says ─────────────────────────────────────────

  function TextIn(parts: seq<Part>): string {
    if parts == [] then "" else (if parts[0].Text? then parts[0].text else "") + TextIn(parts[1..])
  }

  function CallsIn(parts: seq<Part>): seq<ToolCall> {
    if parts == [] then []
    else (if parts[0].Call? then [ToolCall(parts[0].id, parts[0].name, parts[0].input)] else []) + CallsIn(parts[1..])
  }

  lemma {:induction false} CallPartsSay(calls: seq<ToolCall>)
    ensures TextIn(CallParts(calls)) == "" && CallsIn(CallParts(calls)) == calls
    decreases |calls|
  {
    if calls != [] {
      CallPartsSay(calls[1..]);
      assert CallParts(calls)[1..] == CallParts(calls[1..]);
      assert calls == [calls[0]] + calls[1..];
    }
  }

  /** What the assistant said and called is read off its message, and what a call came to off the
      tool's. */
  lemma MessagesSay(text: string, calls: seq<ToolCall>, call: ToolCall, output: string)
    ensures var m := AssistantMessage(text, calls);
      m.role.Assistant? && m.content.Parts? && TextIn(m.content.parts) == text && CallsIn(m.content.parts) == calls
    ensures ResultMessage(call, output).role.Tool?
    ensures ResultMessage(call, output).content == Parts([Result(call.id, output)])
  {
    CallPartsSay(calls);
    var parts := AssistantMessage(text, calls).content.parts;
    if text != "" {
      assert parts[1..] == CallParts(calls);
      assert text + "" == text;
    } else {
      assert parts == CallParts(calls);
    }
  }

  // ── What replies cost and leave ─────────────────────────────────

  /** The tokens of some replies. */
  function Spent(replies: seq<Reply>): nat {
    if replies == [] then 0
    else
      var last := replies[|replies| - 1];
      Spent(replies[..|replies| - 1]) + if last.Spoke? || last.Broken? then last.tokens else 0
  }

  /** The tokens counted once these replies came: no more than a counter of 64 bits holds. */
  function Used(tokens: nat, replies: seq<Reply>): nat {
    if replies == [] then tokens
    else if tokens + Spent(replies) > MAX_U64 then MAX_U64
    else tokens + Spent(replies)
  }

  predicate AllCall(replies: seq<Reply>) {
    forall i :: 0 <= i < |replies| ==> replies[i].Spoke? && replies[i].calls != []
  }

  /** The messages of steps: what the assistant said, and what each of its calls came to. */
  function Exchanged(replies: seq<Reply>): seq<Message>
    requires RepliesOk(replies) && AllCall(replies)
  {
    if replies == [] then []
    else
      var last := replies[|replies| - 1];
      Exchanged(replies[..|replies| - 1]) + [AssistantMessage(last.text, last.calls)] +
        ResultMessages(last.calls, last.outputs)
  }

  // ── How a turn ends ─────────────────────────────────────────────

  predicate Within(budget: Option<nat>, used: nat) {
    budget.None? || used <= budget.value
  }

  /** Step `i` is reached: each before it spoke with calls, within the budget; `left`: the steps a
      turn may have. */
  ghost predicate Reaches(replies: seq<Reply>, tokens: nat, left: nat, budget: Option<nat>, i: nat) {
    && i <= |replies| && i <= left && AllCall(replies[..i])
    && forall j :: 0 <= j < i ==> Within(budget, Used(tokens, replies[..j]))
  }

  /** The model is asked at step `i`. */
  ghost predicate Asked(replies: seq<Reply>, tokens: nat, left: nat, budget: Option<nat>, i: nat) {
    && Reaches(replies, tokens, left, budget, i)
    && i < |replies| && !replies[i].Cancelled? && i < left && Within(budget, Used(tokens, replies[..i]))
  }

  /** A turn ends in `outcome` at step `i`. */
  ghost predicate EndsAt(replies: seq<Reply>, tokens: nat, left: nat, budget: Option<nat>, i: nat, outcome: Outcome) {
    Reaches(replies, tokens, left, budget, i) &&
    match outcome
    case Done(text) =>
      && Asked(replies, tokens, left, budget, i)
      && replies[i].Spoke? && replies[i].calls == [] && replies[i].text == text
    case Failed(why) =>
      match why
      case Stopped =>
        || i == |replies| || replies[i].Cancelled?
        || (Asked(replies, tokens, left, budget, i) && replies[i].Broken? && replies[i].stopped)
      case MaxSteps => i < |replies| && !replies[i].Cancelled? && i == left
      case OverBudget =>
        i < |replies| && !replies[i].Cancelled? && i < left && !Within(budget, Used(tokens, replies[..i]))
      case ModelFailed =>
        Asked(replies, tokens, left, budget, i) && (replies[i].Refused? || (replies[i].Broken? && !replies[i].stopped))
  }

  /** The replies whose tokens are counted when a turn ends at step `i`: with its own, when the model
      was heard. */
  ghost function Heard(replies: seq<Reply>, tokens: nat, left: nat, budget: Option<nat>, i: nat): seq<Reply>
    requires i <= |replies|
  {
    if Asked(replies, tokens, left, budget, i) && !replies[i].Refused? then replies[..i + 1] else replies[..i]
  }

  /** The messages a turn adds that ends in `outcome` at step `i`: what was exchanged, and the answer. */
  function AddedBy(replies: seq<Reply>, i: nat, outcome: Outcome): seq<Message>
    requires i <= |replies| && RepliesOk(replies[..i]) && AllCall(replies[..i])
  {
    Exchanged(replies[..i]) + if outcome.Done? then [AssistantMessage(outcome.text, [])] else []
  }

  /** The steps before one that is reached lead to it. */
  lemma {:induction false} ReachedLoop(
    messages: seq<Message>, tokens: nat, replies: seq<Reply>, maxSteps: nat, budget: Option<nat>, i: nat)
    requires RepliesOk(replies) && Reaches(replies, tokens, maxSteps, budget, i)
    ensures RepliesOk(replies[..i]) && RepliesOk(replies[i..])
    ensures RunLoop(messages, tokens, replies, 0, maxSteps, budget) ==
      RunLoop(messages + Exchanged(replies[..i]), Used(tokens, replies[..i]), replies[i..], i, maxSteps, budget)
    decreases i
  {
    hide RunLoop, AssistantMessage, ResultMessages;
    if i == 0 {
      assert replies[0..] == replies && messages + [] == messages;
    } else {
      var last, before, all := replies[i - 1], replies[..i - 1], replies[..i];
      assert all[..i - 1] == before && all[i - 1] == last;
      ReachedLoop(messages, tokens, replies, maxSteps, budget, i - 1);
      assert replies[i - 1..][0] == last && replies[i - 1..][1..] == replies[i..];
      assert Within(budget, Used(tokens, before));
      UsedOne(tokens, before, last);
      assert before + [last] == all;
      LoopStep(messages + Exchanged(before), Used(tokens, before), replies[i - 1..], i - 1, maxSteps, budget);
      assert messages + Exchanged(all) == messages + Exchanged(before) + [AssistantMessage(last.text, last.calls)] +
        ResultMessages(last.calls, last.outputs);
    }
  }

  lemma UsedOne(tokens: nat, before: seq<Reply>, last: Reply)
    requires last.Spoke? || last.Broken?
    ensures Used(tokens, before + [last]) == AddTokens(Used(tokens, before), last.tokens)
  {
    assert (before + [last])[..|before|] == before;
    assert before == [] ==> Spent(before) == 0;
  }

  lemma EndsHere(
    messages: seq<Message>, tokens: nat, replies: seq<Reply>, maxSteps: nat, budget: Option<nat>, i: nat,
    outcome: Outcome)
    requires RepliesOk(replies) && EndsAt(replies, tokens, maxSteps, budget, i, outcome)
    ensures RepliesOk(replies[..i])
    ensures RunLoop(messages, tokens, replies, 0, maxSteps, budget) ==
      Turn(messages + AddedBy(replies, i, outcome), Used(tokens, Heard(replies, tokens, maxSteps, budget, i)), outcome)
  {
    hide AssistantMessage, ResultMessages, Exchanged, Used, Spent, AllCall;
    ReachedLoop(messages, tokens, replies, maxSteps, budget, i);
    hide Reaches, RepliesOk, AddTokens;
    if i < |replies| {
      assert replies[i..] != [] && replies[i..][0] == replies[i];
      if replies[i].Spoke? || replies[i].Broken? {
        UsedOne(tokens, replies[..i], replies[i]);
        assert replies[..i] + [replies[i]] == replies[..i + 1];
      }
    }
    assert messages + Exchanged(replies[..i]) + [] == messages + Exchanged(replies[..i]);
  }

  /** From a step that is reached, the step the turn ends at. */
  lemma {:induction false} FindEnd(replies: seq<Reply>, tokens: nat, left: nat, budget: Option<nat>, i: nat)
    returns (k: nat, outcome: Outcome)
    requires Reaches(replies, tokens, left, budget, i)
    ensures EndsAt(replies, tokens, left, budget, k, outcome)
    decreases |replies| - i
  {
    hide Used;
    k := i;
    if i == |replies| || replies[i].Cancelled? { outcome := Failed(Stopped); }
    else if i == left { outcome := Failed(MaxSteps); }
    else if !Within(budget, Used(tokens, replies[..i])) { outcome := Failed(OverBudget); }
    else {
      match replies[i]
      case Refused => outcome := Failed(ModelFailed);
      case Broken(_, stopped) => outcome := Failed(if stopped then Stopped else ModelFailed);
      case Spoke(text, calls, _, _) =>
        if calls == [] {
          outcome := Done(text);
        } else {
          assert forall j :: 0 <= j < i + 1 ==> replies[..i + 1][j] == if j < i then replies[..i][j] else replies[i];
          k, outcome := FindEnd(replies, tokens, left, budget, i + 1);
        }
    }
  }

  lemma ReachesFirst(replies: seq<Reply>, tokens: nat, left: nat, budget: Option<nat>)
    ensures Reaches(replies, tokens, left, budget, 0)
  {}

  /** The messages a turn leaves: none of its own when it failed. */
  lemma TurnLeaves(
    messages: seq<Message>, tokens: nat, input: string, replies: seq<Reply>, maxSteps: nat, budget: Option<nat>,
    i: nat, outcome: Outcome)
    requires RepliesOk(replies) && EndsAt(replies, tokens, maxSteps, budget, i, outcome)
    ensures RepliesOk(replies[..i])
    ensures TurnOf(messages, tokens, input, replies, maxSteps, budget) ==
      Turn(messages + if outcome.Done? then [Message(User, Plain(input))] + AddedBy(replies, i, outcome) else [],
           Used(tokens, Heard(replies, tokens, maxSteps, budget, i)), outcome)
  {
    var user := [Message(User, Plain(input))];
    EndsHere(messages + user, tokens, replies, maxSteps, budget, i, outcome);
    hide RunLoop, AddedBy, Heard, Used, EndsAt;
    var added := AddedBy(replies, i, outcome);
    assert messages + user + added == messages + (user + added);
    assert (messages + user + added)[..|messages|] == messages == messages + [];
  }

  /** A turn ends in an outcome exactly when there is a step it ends at so: it answers with what the
      model said without a call, and fails in no other case than those of `EndsAt`. Its messages
      are then the user's, those exchanged before, in order, and the answer; and its tokens those
      of every reply heard. */
  lemma TurnExactly(
    messages: seq<Message>, tokens: nat, input: string, replies: seq<Reply>, maxSteps: nat, budget: Option<nat>,
    outcome: Outcome)
    requires RepliesOk(replies)
    ensures var turn := TurnOf(messages, tokens, input, replies, maxSteps, budget);
      && (turn.outcome == outcome <==> exists i: nat :: EndsAt(replies, tokens, maxSteps, budget, i, outcome))
      && (forall i: nat :: EndsAt(replies, tokens, maxSteps, budget, i, turn.outcome) ==>
          && RepliesOk(replies[..i])
          && turn.tokens == Used(tokens, Heard(replies, tokens, maxSteps, budget, i))
          && turn.messages == messages +
             if turn.outcome.Done? then [Message(User, Plain(input))] + AddedBy(replies, i, turn.outcome) else [])
  {
    var turn := TurnOf(messages, tokens, input, replies, maxSteps, budget);
    ReachesFirst(replies, tokens, maxSteps, budget);
    var k, found := FindEnd(replies, tokens, maxSteps, budget, 0);
    hide RunLoop, TurnOf, Used, AddedBy, Heard;
    forall how, i: nat | EndsAt(replies, tokens, maxSteps, budget, i, how)
      ensures RepliesOk(replies[..i])
      ensures turn == Turn(
        messages + if how.Done? then [Message(User, Plain(input))] + AddedBy(replies, i, how) else [],
        Used(tokens, Heard(replies, tokens, maxSteps, budget, i)), how)
    {
      TurnLeaves(messages, tokens, input, replies, maxSteps, budget, i, how);
    }
    assert EndsAt(replies, tokens, maxSteps, budget, k, found);
    hide EndsAt;
  }
}
