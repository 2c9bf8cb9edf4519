/** The history an agent sends: what normalising keeps of it, and how a request is shortened. */
module History {
  datatype Role = System | User | Assistant | Tool
  datatype Part =
    | Text(text: string) | Call(id: string, name: string, input: string)
    | Result(id: string, output: string) | Other(what: string)
  datatype Content = Plain(text: string) | Parts(parts: seq<Part>)
  datatype Message = Message(role: Role, content: Content)

  function Calls(parts: seq<Part>): set<string> {
    set p <- parts | p.Call? :: p.id
  }

  function CallIds(m: Message): set<string> {
    if m.content.Parts? then Calls(m.content.parts) else {}
  }

  function ResultIds(m: Message): set<string> {
    if m.content.Parts? then set p <- m.content.parts | p.Result? :: p.id else {}
  }

  // ── Normalising ─────────────────────────────────────────────────

  /** How many tool messages come first. */
  function Run(h: seq<Message>): (n: nat)
    ensures n <= |h| && (forall i :: 0 <= i < n ==> h[i].role.Tool?) && (n < |h| ==> !h[n].role.Tool?)
  {
    if h == [] || !h[0].role.Tool? then 0 else 1 + Run(h[1..])
  }

  function ResultsOf(block: seq<Message>): (ids: set<string>)
    ensures forall id :: id in ids <==> exists i :: 0 <= i < |block| && id in ResultIds(block[i])
  {
    if block == [] then {} else
      var ids := ResultIds(block[0]) + ResultsOf(block[1..]);
      assert forall id :: id in ids ==> exists i :: 0 <= i < |block| && id in ResultIds(block[i]) by {
        forall id | id in ids ensures exists i :: 0 <= i < |block| && id in ResultIds(block[i]) {
          if id !in ResultIds(block[0]) {
            var i :| 0 <= i < |block[1..]| && id in ResultIds(block[1..][i]);
            assert id in ResultIds(block[i + 1]);
          }
        }
      }
      ids
  }

  /** The calls of an assistant that its block answers. */
  function Answered(m: Message, block: seq<Message>): set<string> {
    CallIds(m) * ResultsOf(block)
  }

  function KeepParts(parts: seq<Part>, answered: set<string>): seq<Part> {
    if parts == [] then []
    else (if parts[0].Call? && parts[0].id !in answered then [] else [parts[0]]) + KeepParts(parts[1..], answered)
  }

  /** An assistant with the calls its block answers; nothing when nothing of it is left. */
  function KeepAssistant(m: Message, answered: set<string>): seq<Message> {
    if m.content.Plain? then (if m.content.text != "" then [m] else [])
    else
      var parts := KeepParts(m.content.parts, answered);
      if parts == [] then [] else [Message(Assistant, Parts(parts))]
  }

  predicate Answers(t: Message, answered: set<string>) {
    ResultIds(t) * answered != {}
  }

  function KeepTools(block: seq<Message>, answered: set<string>): seq<Message> {
    if block == [] then []
    else (if Answers(block[0], answered) then [block[0]] else []) + KeepTools(block[1..], answered)
  }

  /** What is kept of an assistant and its block. */
  function Kept(m: Message, block: seq<Message>): seq<Message> {
    var answered := Answered(m, block);
    KeepAssistant(m, answered) + KeepTools(block, answered)
  }

  /** The run of tool messages after the first message. */
  function Block(h: seq<Message>): (block: seq<Message>)
    requires h != []
    ensures |block| < |h| && forall i :: 0 <= i < |block| ==> block[i].role.Tool? && block[i] == h[i + 1]
  {
    h[1..][..Run(h[1..])]
  }

  /** What comes after the first message and its block. */
  function After(h: seq<Message>): (rest: seq<Message>)
    requires h != []
    ensures rest == h[1 + |Block(h)|..] && (rest == [] || !rest[0].role.Tool?)
  {
    h[1..][Run(h[1..])..]
  }

  /** The history with each assistant's answered calls, and the tool messages that answer them. */
  function Sanitize(h: seq<Message>): seq<Message>
    decreases |h|
  {
    if h == [] then []
    else if h[0].role.Tool? then Sanitize(h[1..])
    else if !h[0].role.Assistant? then [h[0]] + Sanitize(h[1..])
    else Kept(h[0], Block(h)) + Sanitize(After(h))
  }

  // ── Well-formed histories ───────────────────────────────────────

  /** `h[i]` is an assistant, and every message after it up to `j` is a tool's. */
  predicate BlockOf(h: seq<Message>, i: nat, j: nat) {
    i < j < |h| && h[i].role.Assistant? && forall k :: i < k <= j ==> h[k].role.Tool?
  }

  predicate Empty(m: Message) {
    m.content == Plain("") || m.content == Parts([])
  }

  /** An assistant says something, and each call it makes is answered in the run of tool messages
      right after it. */
  ghost predicate AssistantOk(h: seq<Message>, i: nat)
    requires i < |h|
  {
    !Empty(h[i]) && forall id <- CallIds(h[i]) :: exists j: nat :: BlockOf(h, i, j) && id in ResultIds(h[j])
  }

  /** A tool message is in the run after an assistant, and answers a call of its. */
  ghost predicate ToolOk(h: seq<Message>, j: nat)
    requires j < |h|
  {
    exists i: nat :: BlockOf(h, i, j) && ResultIds(h[j]) * CallIds(h[i]) != {}
  }

  ghost predicate WellFormed(h: seq<Message>) {
    && (forall i: nat :: i < |h| && h[i].role.Assistant? ==> AssistantOk(h, i))
    && (forall j: nat :: j < |h| && h[j].role.Tool? ==> ToolOk(h, j))
  }

  /** The same, block by block. */
  predicate BlockOk(m: Message, block: seq<Message>) {
    !Empty(m) && CallIds(m) <= ResultsOf(block) && forall i :: 0 <= i < |block| ==> Answers(block[i], CallIds(m))
  }

  predicate Blocks(h: seq<Message>)
    decreases |h|
  {
    h == [] ||
    (!h[0].role.Tool? &&
     if !h[0].role.Assistant? then Blocks(h[1..])
     else BlockOk(h[0], Block(h)) && Blocks(After(h)))
  }

  lemma ResultIn(block: seq<Message>, i: nat, id: string)
    requires i < |block| && id in ResultIds(block[i])
    ensures id in ResultsOf(block)
  {}

  /** The messages after a block are as they were. */
  lemma {:induction false} RestAlike(h: seq<Message>, cut: nat)
    requires 0 < cut <= |h| && (cut < |h| ==> !h[cut].role.Tool?)
    ensures forall j: nat :: j < |h| - cut ==>
      && (h[cut + j].role.Assistant? ==> (AssistantOk(h, cut + j) <==> AssistantOk(h[cut..], j)))
      && (h[cut + j].role.Tool? ==> (ToolOk(h, cut + j) <==> ToolOk(h[cut..], j)))
  {
    var rest := h[cut..];
    forall j: nat | j < |rest|
      ensures h[cut + j].role.Assistant? ==> (AssistantOk(h, cut + j) <==> AssistantOk(rest, j))
      ensures h[cut + j].role.Tool? ==> (ToolOk(h, cut + j) <==> ToolOk(rest, j))
    {
      if h[cut + j].role.Assistant? { AssistantAlike(h, cut, j); }
      if h[cut + j].role.Tool? { ToolAlike(h, cut, j); }
    }
  }

  lemma BlockShift(h: seq<Message>, cut: nat, i: nat, j: nat)
    requires cut <= |h| && j < |h| - cut
    ensures BlockOf(h[cut..], i, j) <==> BlockOf(h, cut + i, cut + j)
  {
    if BlockOf(h[cut..], i, j) {
      forall k | cut + i < k <= cut + j ensures h[k].role.Tool? { assert h[cut..][k - cut].role.Tool?; }
    }
  }

  lemma AssistantAlike(h: seq<Message>, cut: nat, j: nat)
    requires cut <= |h| && j < |h| - cut
    ensures AssistantOk(h, cut + j) <==> AssistantOk(h[cut..], j)
  {
    var rest := h[cut..];
    forall id <- CallIds(rest[j])
      ensures (exists k: nat :: BlockOf(rest, j, k) && id in ResultIds(rest[k])) <==>
        (exists k: nat :: BlockOf(h, cut + j, k) && id in ResultIds(h[k]))
    {
      if k: nat :| BlockOf(rest, j, k) && id in ResultIds(rest[k]) {
        BlockShift(h, cut, j, k);
        assert BlockOf(h, cut + j, cut + k);
      }
      if k: nat :| BlockOf(h, cut + j, k) && id in ResultIds(h[k]) {
        BlockShift(h, cut, j, k - cut);
        assert BlockOf(rest, j, k - cut);
      }
    }
  }

  lemma ToolAlike(h: seq<Message>, cut: nat, j: nat)
    requires cut <= |h| && j < |h| - cut && (cut < |h| ==> !h[cut].role.Tool?)
    ensures ToolOk(h, cut + j) <==> ToolOk(h[cut..], j)
  {
    var rest := h[cut..];
    if ToolOk(rest, j) {
      var i: nat :| BlockOf(rest, i, j) && ResultIds(rest[j]) * CallIds(rest[i]) != {};
      BlockShift(h, cut, i, j);
      assert BlockOf(h, cut + i, cut + j);
    }
    if ToolOk(h, cut + j) {
      var i: nat :| BlockOf(h, i, cut + j) && ResultIds(h[cut + j]) * CallIds(h[i]) != {};
      BlockShift(h, cut, i - cut, j);
      assert BlockOf(rest, i - cut, j);
    }
  }

  /** The first message's block is the run of tool messages after it. */
  lemma FirstBlock(h: seq<Message>, j: nat)
    requires h != [] && h[0].role.Assistant?
    ensures BlockOf(h, 0, j) <==> 1 <= j <= |Block(h)|
  {
    assert After(h) != [] ==> After(h)[0] == h[1 + |Block(h)|];
    if 1 <= j <= |Block(h)| {
      forall k | 0 < k <= j ensures h[k].role.Tool? { assert Block(h)[k - 1] == h[k]; }
    }
  }

  lemma FirstResults(h: seq<Message>, id: string)
    requires h != [] && h[0].role.Assistant?
    ensures id in ResultsOf(Block(h)) <==> exists j: nat :: BlockOf(h, 0, j) && id in ResultIds(h[j])
  {
    var block := Block(h);
    hide Block, ResultIds;
    if id in ResultsOf(block) {
      var i :| 0 <= i < |block| && id in ResultIds(block[i]);
      FirstBlock(h, i + 1);
      assert BlockOf(h, 0, i + 1) && id in ResultIds(h[i + 1]);
    }
    if j: nat :| BlockOf(h, 0, j) && id in ResultIds(h[j]) {
      FirstBlock(h, j);
      ResultIn(block, j - 1, id);
    }
  }

  /** An assistant's own messages: they are in order exactly when its block is. */
  lemma HeadBlock(h: seq<Message>)
    requires h != [] && h[0].role.Assistant?
    ensures BlockOk(h[0], Block(h)) <==> AssistantOk(h, 0) && forall j: nat :: 1 <= j <= |Block(h)| ==> ToolOk(h, j)
  {
    hide Block, ResultsOf, ToolOk, Answers, CallIds, ResultIds, Empty;
    var block := Block(h);
    forall id: string ensures id in ResultsOf(block) <==> exists j: nat :: BlockOf(h, 0, j) && id in ResultIds(h[j]) {
      FirstResults(h, id);
    }
    forall j: nat | 1 <= j <= |block| ensures ToolOk(h, j) <==> Answers(block[j - 1], CallIds(h[0])) {
      FirstBlock(h, j);
      OwnerIsHead(h, j);
    }
    assert forall i :: 0 <= i < |block| ==> (Answers(block[i], CallIds(h[0])) <==> ToolOk(h, i + 1));
  }

  lemma OwnerIsHead(h: seq<Message>, j: nat)
    requires h != [] && h[0].role.Assistant? && BlockOf(h, 0, j)
    ensures ToolOk(h, j) <==> Answers(h[j], CallIds(h[0]))
  {
    if ToolOk(h, j) {
      var i: nat :| BlockOf(h, i, j) && ResultIds(h[j]) * CallIds(h[i]) != {};
      assert i == 0;
    }
  }

  /** The first `cut` messages are in order. */
  ghost predicate HeadOk(h: seq<Message>, cut: nat)
    requires cut <= |h|
  {
    forall j: nat :: j < cut ==> (h[j].role.Assistant? ==> AssistantOk(h, j)) && (h[j].role.Tool? ==> ToolOk(h, j))
  }

  lemma HeadIsBlock(h: seq<Message>)
    requires h != [] && h[0].role.Assistant?
    ensures HeadOk(h, 1 + |Block(h)|) <==> BlockOk(h[0], Block(h))
  {
    hide AssistantOk, ToolOk, BlockOk, Block;
    HeadBlock(h);
    assert forall j: nat :: 1 <= j < 1 + |Block(h)| ==> h[j] == Block(h)[j - 1];
  }

  lemma AssistantFirst(h: seq<Message>)
    requires h != [] && h[0].role.Assistant?
    ensures WellFormed(h) <==> BlockOk(h[0], Block(h)) && WellFormed(After(h))
  {
    hide *;
    HeadIsBlock(h);
    assert 1 + |Block(h)| < |h| ==> h[1 + |Block(h)|] == After(h)[0];
    RestWellFormed(h, 1 + |Block(h)|);
  }

  /** Both ways of saying that a history is well-formed agree. */
  lemma {:induction false} WellFormedIsBlocks(h: seq<Message>)
    ensures WellFormed(h) <==> Blocks(h)
    decreases |h|
  {
    hide WellFormed, BlockOk, Block, After;
    if h == [] {
      NothingWellFormed();
    } else if h[0].role.Tool? {
      FirstTool(h);
    } else if h[0].role.Assistant? {
      WellFormedIsBlocks(After(h));
      AssistantFirst(h);
    } else if |h| > 1 && h[1].role.Tool? {
      LooseTool(h);
    } else {
      WellFormedIsBlocks(h[1..]);
      OtherFirst(h);
    }
  }

  lemma NothingWellFormed()
    ensures WellFormed([])
  {}

  lemma FirstTool(h: seq<Message>)
    requires h != [] && h[0].role.Tool?
    ensures !WellFormed(h)
  {
    assert !ToolOk(h, 0);
  }

  lemma OtherFirst(h: seq<Message>)
    requires h != [] && !h[0].role.Assistant? && !h[0].role.Tool? && (|h| > 1 ==> !h[1].role.Tool?)
    ensures WellFormed(h) <==> WellFormed(h[1..])
  {
    hide WellFormed;
    RestWellFormed(h, 1);
  }

  /** A tool message right after a message that is no assistant's is in no block. */
  lemma LooseTool(h: seq<Message>)
    requires |h| > 1 && h[1].role.Tool? && !h[0].role.Assistant?
    ensures !WellFormed(h) && !Blocks(h[1..])
  {
    assert !ToolOk(h, 1);
  }

  lemma RestWellFormed(h: seq<Message>, cut: nat)
    requires 0 < cut <= |h| && (cut < |h| ==> !h[cut].role.Tool?)
    ensures WellFormed(h) <==> WellFormed(h[cut..]) && HeadOk(h, cut)
  {
    var rest := h[cut..];
    RestAlike(h, cut);
    hide AssistantOk, ToolOk;
    if WellFormed(h) {
      forall j: nat | j < |rest|
        ensures (rest[j].role.Assistant? ==> AssistantOk(rest, j)) && (rest[j].role.Tool? ==> ToolOk(rest, j))
      {
        assert rest[j] == h[cut + j];
      }
    }
    if WellFormed(rest) {
      forall j: nat | cut <= j < |h|
        ensures (h[j].role.Assistant? ==> AssistantOk(h, j)) && (h[j].role.Tool? ==> ToolOk(h, j))
      {
        assert h[j] == rest[j - cut] && h[cut + (j - cut)] == h[j];
      }
    }
  }

  // ── What normalising gives ──────────────────────────────────────

  lemma {:induction false} PartsKept(parts: seq<Part>, answered: set<string>)
    ensures Calls(KeepParts(parts, answered)) == Calls(parts) * answered
    ensures Calls(parts) <= answered <==> KeepParts(parts, answered) == parts
    ensures |KeepParts(parts, answered)| <= |parts|
  {
    if parts != [] {
      PartsKept(parts[1..], answered);
      var rest, kept := KeepParts(parts[1..], answered), KeepParts(parts, answered);
      assert parts == [parts[0]] + parts[1..];
      assert Calls(parts) == Calls(parts[1..]) + Calls([parts[0]]);
      if parts[0].Call? && parts[0].id !in answered {
        assert |kept| < |parts| && kept == rest;
      } else {
        assert kept == [parts[0]] + rest && kept[1..] == rest;
        assert Calls(kept) == Calls(rest) + Calls([parts[0]]);
      }
    }
  }

  lemma {:induction false} ToolsKept(block: seq<Message>, answered: set<string>)
    requires forall i :: 0 <= i < |block| ==> block[i].role.Tool?
    ensures var kept := KeepTools(block, answered);
      && |kept| <= |block|
      && (forall i :: 0 <= i < |kept| ==> kept[i].role.Tool? && Answers(kept[i], answered))
      && (kept == block <==> forall i :: 0 <= i < |block| ==> Answers(block[i], answered))
  {
    hide Answers;
    if block != [] {
      ToolsKept(block[1..], answered);
      var rest, kept := KeepTools(block[1..], answered), KeepTools(block, answered);
      assert block == [block[0]] + block[1..];
      if Answers(block[0], answered) {
        assert kept == [block[0]] + rest && kept[1..] == rest;
      } else {
        assert |kept| < |block|;
      }
    }
  }

  lemma {:induction false} ResultsKept(block: seq<Message>, answered: set<string>)
    ensures ResultsOf(KeepTools(block, answered)) * answered == ResultsOf(block) * answered
  {
    if block != [] {
      var rest := KeepTools(block[1..], answered);
      ResultsKept(block[1..], answered);
      ResultsFirst(block);
      if Answers(block[0], answered) {
        ResultsFirst([block[0]] + rest);
        assert ([block[0]] + rest)[1..] == rest;
        assert KeepTools(block, answered) == [block[0]] + rest;
        Distributes(ResultIds(block[0]), ResultsOf(rest), answered);
        Distributes(ResultIds(block[0]), ResultsOf(block[1..]), answered);
      } else {
        assert ResultIds(block[0]) * answered == {};
        assert KeepTools(block, answered) == rest;
        Distributes(ResultIds(block[0]), ResultsOf(block[1..]), answered);
      }
    }
  }

  lemma Distributes(a: set<string>, b: set<string>, c: set<string>)
    ensures (a + b) * c == a * c + b * c
  {}

  lemma ResultsFirst(block: seq<Message>)
    requires block != []
    ensures ResultsOf(block) == ResultIds(block[0]) + ResultsOf(block[1..])
  {}

  lemma {:induction false} RunOfTools(tools: seq<Message>, rest: seq<Message>)
    requires (forall i :: 0 <= i < |tools| ==> tools[i].role.Tool?) && (rest == [] || !rest[0].role.Tool?)
    ensures Run(tools + rest) == |tools|
  {
    if tools != [] {
      assert (tools + rest)[1..] == tools[1..] + rest;
      RunOfTools(tools[1..], rest);
    } else {
      assert tools + rest == rest;
    }
  }

  /** A message, its block and what comes after. */
  lemma Split(m: Message, tools: seq<Message>, rest: seq<Message>)
    requires (forall i :: 0 <= i < |tools| ==> tools[i].role.Tool?) && (rest == [] || !rest[0].role.Tool?)
    ensures var h := [m] + tools + rest; h != [] && h[0] == m && Block(h) == tools && After(h) == rest
  {
    var h := [m] + tools + rest;
    assert h[1..] == tools + rest;
    RunOfTools(tools, rest);
    assert (tools + rest)[..|tools|] == tools && (tools + rest)[|tools|..] == rest;
  }

  lemma Whole(h: seq<Message>)
    requires h != []
    ensures h == [h[0]] + Block(h) + After(h)
  {}

  /** Blocks one after the other. */
  lemma BlocksJoin(m: Message, tools: seq<Message>, rest: seq<Message>)
    requires m.role.Assistant? && (forall i :: 0 <= i < |tools| ==> tools[i].role.Tool?)
    requires (rest == [] || !rest[0].role.Tool?)
    ensures Blocks([m] + tools + rest) <==> BlockOk(m, tools) && Blocks(rest)
  {
    Split(m, tools, rest);
  }

  /** What is left of an assistant makes the calls answered, and is all of it when all are. */
  lemma AssistantKept(m: Message, answered: set<string>)
    requires m.role.Assistant? && answered <= CallIds(m)
    ensures var kept := KeepAssistant(m, answered);
      && (kept != [] ==> |kept| == 1 && kept[0].role.Assistant? && CallIds(kept[0]) == answered && !Empty(kept[0]))
      && (kept == [] ==> answered == {})
      && (kept == [m] <==> !Empty(m) && CallIds(m) == answered)
  {
    if m.content.Parts? {
      var parts := KeepParts(m.content.parts, answered);
      PartsKept(m.content.parts, answered);
      assert Calls([]) == {};
      assert Calls(parts) == answered;
    }
  }

  /** What is left of a block is a block. */
  lemma KeptBlock(m: Message, block: seq<Message>)
    requires m.role.Assistant? && forall i :: 0 <= i < |block| ==> block[i].role.Tool?
    ensures var answered := Answered(m, block);
      var kept, tools := KeepAssistant(m, answered), KeepTools(block, answered);
      && (kept != [] ==> |kept| == 1 && kept[0].role.Assistant? && BlockOk(kept[0], tools))
      && (kept == [] ==> tools == [])
      && |kept| <= 1
      && (kept == [m] && tools == block <==> BlockOk(m, block))
  {
    var answered := Answered(m, block);
    var kept, tools := KeepAssistant(m, answered), KeepTools(block, answered);
    hide KeepAssistant, KeepTools, CallIds, ResultsOf, Answers, Empty;
    AssistantKept(m, answered);
    ToolsKept(block, answered);
    ResultsKept(block, answered);
    if answered == {} { NoneAnswers(block, answered); }
    assert answered <= ResultsOf(tools) by {
      forall id <- answered ensures id in ResultsOf(tools) { assert id in ResultsOf(block) * answered; }
    }
    assert CallIds(m) == answered <==> CallIds(m) <= ResultsOf(block);
  }

  lemma NoneAnswers(block: seq<Message>, answered: set<string>)
    requires answered == {}
    ensures KeepTools(block, answered) == []
  {
    if block != [] { NoneAnswers(block[1..], answered); }
  }

  /** Normalising starts with no tool message. */
  lemma {:induction false} StartsPlain(h: seq<Message>)
    ensures Sanitize(h) == [] || !Sanitize(h)[0].role.Tool?
    decreases |h|
  {
    if h == [] {
    } else if h[0].role.Tool? {
      StartsPlain(h[1..]);
    } else if h[0].role.Assistant? {
      KeptBlock(h[0], Block(h));
      StartsPlain(After(h));
    }
  }

  /** Normalising always gives a well-formed history. */
  lemma {:induction false} SanitizedBlocks(h: seq<Message>)
    ensures Blocks(Sanitize(h))
    decreases |h|
  {
    if h == [] {
    } else if h[0].role.Tool? {
      SanitizedBlocks(h[1..]);
    } else if !h[0].role.Assistant? {
      SanitizedBlocks(h[1..]);
      assert Sanitize(h)[1..] == Sanitize(h[1..]);
    } else {
      SanitizedBlocks(After(h));
      SanitizedAssistant(h[0], Block(h), Sanitize(After(h)), After(h));
    }
  }

  lemma SanitizedAssistant(m: Message, block: seq<Message>, after: seq<Message>, rest: seq<Message>)
    requires m.role.Assistant? && (forall i :: 0 <= i < |block| ==> block[i].role.Tool?) && Blocks(after)
    requires after == Sanitize(rest)
    ensures Blocks(Kept(m, block) + after)
  {
    var answered := Answered(m, block);
    var kept, tools := KeepAssistant(m, answered), KeepTools(block, answered);
    hide Sanitize, Blocks, KeepAssistant, KeepTools, BlockOk, Answered;
    StartsPlain(rest);
    KeptBlock(m, block);
    ToolsKept(block, answered);
    if kept != [] {
      BlocksJoin(kept[0], tools, after);
      assert kept == [kept[0]];
    } else {
      assert [] + [] + after == after;
    }
  }

  /** It changes nothing exactly when the history is well-formed. */
  lemma {:induction false} IdentityOnBlocks(h: seq<Message>)
    ensures |Sanitize(h)| <= |h|
    ensures Sanitize(h) == h <==> Blocks(h)
    decreases |h|
  {
    if h == [] {
    } else if h[0].role.Tool? {
      IdentityOnBlocks(h[1..]);
    } else if !h[0].role.Assistant? {
      IdentityOnBlocks(h[1..]);
      assert h == [h[0]] + h[1..] && Sanitize(h)[1..] == Sanitize(h[1..]);
    } else {
      IdentityOnBlocks(After(h));
      Whole(h);
      AssistantIdentity(h[0], Block(h), Sanitize(After(h)), After(h));
    }
  }

  lemma AssistantIdentity(m: Message, block: seq<Message>, after: seq<Message>, rest: seq<Message>)
    requires m.role.Assistant? && (forall i :: 0 <= i < |block| ==> block[i].role.Tool?) && |after| <= |rest|
    ensures |Kept(m, block) + after| <= |[m] + block + rest|
    ensures Kept(m, block) + after == [m] + block + rest <==> BlockOk(m, block) && after == rest
  {
    var answered := Answered(m, block);
    var kept, tools := KeepAssistant(m, answered), KeepTools(block, answered);
    hide KeepAssistant, KeepTools, BlockOk, Answered;
    KeptBlock(m, block);
    ToolsKept(block, answered);
    PiecesAlike(m, kept, tools, block, after, rest);
  }

  /** No piece is longer, so the whole is the same exactly when each piece is. */
  lemma PiecesAlike(
    m: Message, kept: seq<Message>, tools: seq<Message>, block: seq<Message>, after: seq<Message>, rest: seq<Message>)
    requires |kept| <= 1 && |tools| <= |block| && |after| <= |rest|
    ensures kept + tools + after == [m] + block + rest <==> kept == [m] && tools == block && after == rest
  {
    var s, t := kept + tools + after, [m] + block + rest;
    if s == t {
      assert |kept| == 1 && |tools| == |block|;
      assert kept == s[..1] && t[..1] == [m];
      assert tools == s[1..1 + |block|] && t[1..1 + |block|] == block;
      assert after == s[1 + |block|..] && t[1 + |block|..] == rest;
    }
  }

  /** What is normalised is well-formed, whatever it was. */
  lemma AlwaysWellFormed(h: seq<Message>)
    ensures WellFormed(Sanitize(h))
  {
    SanitizedBlocks(h);
    WellFormedIsBlocks(Sanitize(h));
  }

  /** Normalising is the identity exactly on well-formed histories. */
  lemma IdentityExactly(h: seq<Message>)
    ensures Sanitize(h) == h <==> WellFormed(h)
  {
    IdentityOnBlocks(h);
    WellFormedIsBlocks(h);
  }

  /** Normalising again changes nothing. */
  lemma Idempotent(h: seq<Message>)
    ensures Sanitize(Sanitize(h)) == Sanitize(h)
  {
    AlwaysWellFormed(h);
    IdentityExactly(Sanitize(h));
  }

  // ── Cutting ─────────────────────────────────────────────────────

  predicate Suffix(s: seq<Message>, t: seq<Message>) {
    |s| <= |t| && s == t[|t| - |s|..]
  }

  lemma SuffixTrans(s: seq<Message>, t: seq<Message>, u: seq<Message>)
    requires Suffix(s, t) && Suffix(t, u)
    ensures Suffix(s, u)
  {}

  /** Normalising distributes over a cut before a message that is no tool's. */
  lemma {:induction false} CutBetweenBlocks(h: seq<Message>, cut: nat)
    requires cut <= |h| && (cut < |h| ==> !h[cut].role.Tool?)
    ensures Sanitize(h) == Sanitize(h[..cut]) + Sanitize(h[cut..])
    decreases |h|
  {
    hide *;
    if cut == 0 {
      CutNothing(h);
    } else if !h[0].role.Assistant? {
      CutBetweenBlocks(h[1..], cut - 1);
      CutPlain(h, cut);
    } else {
      CutAfterBlock(h, cut);
      CutBetweenBlocks(After(h), cut - 1 - |Block(h)|);
      CutAssistant(h, cut);
    }
  }

  lemma CutNothing(h: seq<Message>)
    ensures Sanitize(h) == Sanitize(h[..0]) + Sanitize(h[0..])
  {
    assert h[..0] == [] && h[0..] == h && Sanitize([]) + Sanitize(h) == Sanitize(h);
  }

  lemma CutPlain(h: seq<Message>, cut: nat)
    requires 0 < cut <= |h| && !h[0].role.Assistant?
    requires Sanitize(h[1..]) == Sanitize(h[1..][..cut - 1]) + Sanitize(h[1..][cut - 1..])
    ensures Sanitize(h) == Sanitize(h[..cut]) + Sanitize(h[cut..])
  {
    assert h[..cut][0] == h[0] && h[..cut][1..] == h[1..][..cut - 1] && h[1..][cut - 1..] == h[cut..];
    if !h[0].role.Tool? { Appended([h[0]], Sanitize(h[1..][..cut - 1]), Sanitize(h[cut..])); }
  }

  lemma CutAssistant(h: seq<Message>, cut: nat)
    requires 0 < cut <= |h| && h[0].role.Assistant? && 1 + |Block(h)| <= cut
    requires Block(h[..cut]) == Block(h) && After(h[..cut]) == After(h)[..cut - 1 - |Block(h)|]
    requires var n := cut - 1 - |Block(h)|; Sanitize(After(h)) == Sanitize(After(h)[..n]) + Sanitize(After(h)[n..])
    ensures Sanitize(h) == Sanitize(h[..cut]) + Sanitize(h[cut..])
  {
    hide Kept, Block, After;
    assert h[..cut][0] == h[0] && After(h)[cut - 1 - |Block(h)|..] == h[cut..];
    Appended(Kept(h[0], Block(h)), Sanitize(After(h[..cut])), Sanitize(h[cut..]));
  }

  lemma Appended(a: seq<Message>, b: seq<Message>, c: seq<Message>)
    ensures a + (b + c) == (a + b) + c
  {}

  /** A cut past an assistant is past its block. */
  lemma CutAfterBlock(h: seq<Message>, cut: nat)
    requires 0 < cut <= |h| && (cut < |h| ==> !h[cut].role.Tool?)
    ensures var n := |Block(h)|;
      && 1 + n <= cut && (1 + n < |h| ==> !After(h)[0].role.Tool?)
      && (cut - 1 - n < |After(h)| ==> !After(h)[cut - 1 - n].role.Tool?)
      && Block(h[..cut]) == Block(h) && After(h[..cut]) == After(h)[..cut - 1 - n]
  {
    var n := |Block(h)|;
    assert forall k: nat :: k < n ==> Block(h)[k] == h[k + 1];
    var rest := After(h)[..cut - 1 - n];
    assert h[..cut] == [h[0]] + Block(h) + rest;
    Split(h[0], Block(h), rest);
  }

  /** Whatever was cut off, what is normalised of the rest is the end of what was normalised of all. */
  lemma {:induction false} AnyCut(h: seq<Message>, cut: nat)
    requires cut <= |h|
    ensures Suffix(Sanitize(h[cut..]), Sanitize(h))
    decreases |h| - cut
  {
    if cut < |h| && h[cut].role.Tool? {
      AnyCut(h, cut + 1);
      assert h[cut..][1..] == h[cut + 1..];
    } else {
      CutBetweenBlocks(h, cut);
    }
  }

  // ── Shortening a request ────────────────────────────────────────

  /** Where a request's history starts: `keep` messages from its end, or before them the assistant
      whose block that would cut. */
  function StartOf(h: seq<Message>, start: nat): (s: nat)
    requires start <= |h|
    ensures s <= start && (s == 0 || s == |h| || !h[s].role.Tool?)
    ensures forall i :: s < i < start ==> h[i].role.Tool?
  {
    if 0 < start < |h| && h[start].role.Tool? then StartOf(h, start - 1) else start
  }

  function Compact(h: seq<Message>, keep: nat): seq<Message> {
    Sanitize(h[StartOf(h, if |h| < keep then 0 else |h| - keep)..])
  }

  /** A shortened history is the end of the normalised one. */
  lemma CompactIsSuffix(h: seq<Message>, keep: nat)
    ensures Suffix(Compact(h, keep), Sanitize(h)) && WellFormed(Compact(h, keep))
  {
    AnyCut(h, StartOf(h, if |h| < keep then 0 else |h| - keep));
    AlwaysWellFormed(h[StartOf(h, if |h| < keep then 0 else |h| - keep)..]);
  }

  /** Of a well-formed history, exactly the last messages are kept, as they are: `keep` of them,
      and those before them in a block they would cut. */
  lemma CompactKeeps(h: seq<Message>, keep: nat)
    requires WellFormed(h)
    ensures var start := StartOf(h, if |h| < keep then 0 else |h| - keep);
      Compact(h, keep) == h[start..] && (|h| >= keep ==> |Compact(h, keep)| >= keep)
  {
    var start := StartOf(h, if |h| < keep then 0 else |h| - keep);
    IdentityExactly(h);
    IdentityExactly(h[start..]);
    WellFormedIsBlocks(h);
    if start == 0 {
      assert h[start..] == h;
    } else if start == |h| {
      assert h[start..] == [];
    } else {
      RestWellFormed(h, start);
    }
  }

  const FIRST_KEEP: nat := 40
  const SECOND_KEEP: nat := 8

  /** The history a request is made with, after `retries` answers that it was too long. */
  function RequestHistory(h: seq<Message>, retries: nat): seq<Message> {
    if retries == 0 then Sanitize(h)
    else Compact(RequestHistory(h, retries - 1), if retries == 1 then FIRST_KEEP else SECOND_KEEP)
  }

  /** On every retry the history is well-formed, and the end of the one before it. */
  lemma {:induction false} RetriesShorten(h: seq<Message>, retries: nat)
    ensures WellFormed(RequestHistory(h, retries)) && Suffix(RequestHistory(h, retries), Sanitize(h))
    ensures retries > 0 ==> Suffix(RequestHistory(h, retries), RequestHistory(h, retries - 1))
  {
    hide WellFormed, Sanitize, Compact;
    if retries == 0 {
      AlwaysWellFormed(h);
    } else {
      var before := RequestHistory(h, retries - 1);
      RetriesShorten(h, retries - 1);
      CompactIsSuffix(before, if retries == 1 then FIRST_KEEP else SECOND_KEEP);
      IdentityExactly(before);
      SuffixTrans(RequestHistory(h, retries), before, Sanitize(h));
    }
  }

  /** The first retry keeps 40 messages at least, and the second 8, or all there are. */
  lemma RetriesKeep(h: seq<Message>, retries: nat)
    requires 1 <= retries <= 2
    ensures var before, after := RequestHistory(h, retries - 1), RequestHistory(h, retries);
      var keep := if retries == 1 then 40 else 8;
      |after| >= (if |before| < keep then |before| else keep) && (|before| <= keep ==> after == before)
  {
    var before := RequestHistory(h, retries - 1);
    RetriesShorten(h, retries - 1);
    CompactKeeps(before, if retries == 1 then 40 else 8);
    hide WellFormed, Sanitize;
    assert before[0..] == before;
  }
}
