/** What normalising keeps, message by message. */
module HistoryKept {
  import opened History

  /** The calls of `h[i]` that the run of tool messages right after it answers. */
  ghost function AnsweredAt(h: seq<Message>, i: nat): set<string>
    requires i < |h|
  {
    set id | id in CallIds(h[i]) && exists j: nat :: BlockOf(h, i, j) && id in ResultIds(h[j])
  }

  /** What is kept of one message: all of a user's or the system's; of an assistant all but the
      calls not answered; a tool's when it answers a call of its block. */
  ghost function KeepAt(h: seq<Message>, i: nat): seq<Message>
    requires i < |h|
  {
    match h[i].role
    case Assistant => KeepAssistant(h[i], AnsweredAt(h, i))
    case Tool => if ToolOk(h, i) then [h[i]] else []
    case _ => [h[i]]
  }

  ghost function KeepFrom(h: seq<Message>, i: nat): seq<Message>
    requires i <= |h|
    decreases |h| - i
  {
    if i == |h| then [] else KeepAt(h, i) + KeepFrom(h, i + 1)
  }

  /** No assistant's block holds `h[cut]`. */
  ghost predicate Between(h: seq<Message>, cut: nat) {
    forall i: nat :: !BlockOf(h, i, cut)
  }

  lemma BlockShorter(h: seq<Message>, i: nat, j: nat)
    requires j > 0
    ensures BlockOf(h, i, j) ==> h[i].role.Assistant? && (i == j - 1 || BlockOf(h, i, j - 1))
  {}

  lemma AfterOther(h: seq<Message>, cut: nat)
    requires cut < |h| && Between(h, cut) && !h[cut].role.Assistant?
    ensures Between(h, cut + 1)
    ensures h[cut].role.Tool? ==> !ToolOk(h, cut)
  {
    var next := cut + 1;
    forall i: nat ensures BlockOf(h, i, next) ==> false { BlockShorter(h, i, next); }
  }

  /** The block of an assistant, as the run of tool messages right after it. */
  lemma BlockHere(h: seq<Message>, cut: nat, j: nat)
    requires cut < |h| && h[cut].role.Assistant?
    ensures BlockOf(h, cut, j) <==> cut < j <= cut + |Block(h[cut..])|
  {
    FirstBlock(h[cut..], if j >= cut then j - cut else 0);
    if cut < j < |h| { BlockShift(h, cut, 0, j - cut); }
  }

  lemma AnsweredHere(h: seq<Message>, cut: nat)
    requires cut < |h| && h[cut].role.Assistant?
    ensures AnsweredAt(h, cut) == Answered(h[cut], Block(h[cut..]))
  {
    var block := Block(h[cut..]);
    hide Block, ResultIds, CallIds;
    forall id: string ensures id in ResultsOf(block) <==> exists j: nat :: BlockOf(h, cut, j) && id in ResultIds(h[j]) {
      if id in ResultsOf(block) {
        var i :| 0 <= i < |block| && id in ResultIds(block[i]);
        BlockHere(h, cut, cut + 1 + i);
        assert block[i] == h[cut..][i + 1];
        assert BlockOf(h, cut, cut + 1 + i) && id in ResultIds(h[cut + 1 + i]);
      }
      if j: nat :| BlockOf(h, cut, j) && id in ResultIds(h[j]) {
        BlockHere(h, cut, j);
        assert block[j - cut - 1] == h[cut..][j - cut];
        ResultIn(block, j - cut - 1, id);
      }
    }
  }

  /** A tool message of a block answers a call of its assistant's exactly when it answers one
      that is answered. */
  lemma ToolHere(h: seq<Message>, cut: nat, j: nat)
    requires cut < j < |h| && h[cut].role.Assistant? && BlockOf(h, cut, j)
    ensures ToolOk(h, j) <==> Answers(h[j], AnsweredAt(h, cut))
  {
    if ToolOk(h, j) {
      var i: nat :| BlockOf(h, i, j) && ResultIds(h[j]) * CallIds(h[i]) != {};
      assert i == cut;
      var id :| id in ResultIds(h[j]) * CallIds(h[i]);
      assert id in AnsweredAt(h, cut);
      assert id in ResultIds(h[j]) * AnsweredAt(h, cut);
    }
    if Answers(h[j], AnsweredAt(h, cut)) {
      var id :| id in ResultIds(h[j]) * AnsweredAt(h, cut);
      assert id in ResultIds(h[j]) * CallIds(h[cut]);
    }
  }

  /** The next tool message of a block: what is kept of it, and of the block from it on. */
  lemma NextTool(h: seq<Message>, cut: nat, k: nat)
    requires cut < |h| && h[cut].role.Assistant? && k < |Block(h[cut..])|
    ensures cut + 1 + |Block(h[cut..])| <= |h|
    ensures KeepFrom(h, cut + 1 + k) == KeepAt(h, cut + 1 + k) + KeepFrom(h, cut + 2 + k)
    ensures KeepTools(Block(h[cut..])[k..], AnsweredAt(h, cut)) ==
      KeepAt(h, cut + 1 + k) + KeepTools(Block(h[cut..])[k + 1..], AnsweredAt(h, cut))
  {
    hide AnsweredAt, Answers, ToolOk, BlockOf, ResultIds, CallIds;
    var block, j := Block(h[cut..]), cut + 1 + k;
    assert block[k] == h[cut..][k + 1] == h[j];
    hide Block;
    assert block[k..][0] == h[j] && block[k..][1..] == block[k + 1..];
    BlockHere(h, cut, j);
    ToolHere(h, cut, j);
  }

  lemma NoTools(answered: set<string>)
    ensures KeepTools([], answered) == []
  {}

  /** The tool messages kept of a block. */
  lemma {:induction false} ToolsHere(h: seq<Message>, cut: nat, k: nat)
    requires cut < |h| && h[cut].role.Assistant? && k <= |Block(h[cut..])|
    ensures cut + 1 + |Block(h[cut..])| <= |h|
    ensures KeepFrom(h, cut + 1 + k) ==
      KeepTools(Block(h[cut..])[k..], AnsweredAt(h, cut)) + KeepFrom(h, cut + 1 + |Block(h[cut..])|)
    decreases |Block(h[cut..])| - k
  {
    hide *;
    var block := Block(h[cut..]);
    if k == |block| {
      assert block[k..] == [];
      NoTools(AnsweredAt(h, cut));
    } else {
      NextTool(h, cut, k);
      ToolsHere(h, cut, k + 1);
      Appended(KeepAt(h, cut + 1 + k), KeepTools(block[k + 1..], AnsweredAt(h, cut)), KeepFrom(h, cut + 1 + |block|));
    }
  }

  lemma AfterBlock(h: seq<Message>, cut: nat)
    requires cut < |h| && h[cut].role.Assistant?
    ensures var n := |Block(h[cut..])|;
      cut + 1 + n <= |h| && After(h[cut..]) == h[cut + 1 + n..] && Between(h, cut + 1 + n)
  {
    var n := |Block(h[cut..])|;
    var next := cut + 1 + n;
    assert After(h[cut..]) == h[cut..][1 + n..];
    if next < |h| { assert After(h[cut..])[0] == h[next]; }
  }

  lemma {:induction false} SanitizedFrom(h: seq<Message>, cut: nat)
    requires cut <= |h| && Between(h, cut)
    ensures Sanitize(h[cut..]) == KeepFrom(h, cut)
    decreases |h| - cut
  {
    hide Between, BlockOf, ToolOk, Block, After, AnsweredAt;
    if cut < |h| {
      assert h[cut..][0] == h[cut] && h[cut..][1..] == h[cut + 1..];
      if !h[cut].role.Assistant? {
        AfterOther(h, cut);
        SanitizedFrom(h, cut + 1);
      } else {
        AfterBlock(h, cut);
        SanitizedFrom(h, cut + 1 + |Block(h[cut..])|);
        AnsweredHere(h, cut);
        ToolsHere(h, cut, 0);
        assert Block(h[cut..])[0..] == Block(h[cut..]);
        hide Sanitize, KeepTools, KeepAssistant;
        AssistantFrom(h, cut);
      }
    }
  }

  /** What is kept from an assistant on. */
  lemma AssistantFrom(h: seq<Message>, cut: nat)
    requires cut < |h| && h[cut].role.Assistant? && cut + 1 + |Block(h[cut..])| <= |h|
    requires AnsweredAt(h, cut) == Answered(h[cut], Block(h[cut..]))
    requires Sanitize(After(h[cut..])) == KeepFrom(h, cut + 1 + |Block(h[cut..])|)
    requires KeepFrom(h, cut + 1) ==
      KeepTools(Block(h[cut..]), AnsweredAt(h, cut)) + KeepFrom(h, cut + 1 + |Block(h[cut..])|)
    ensures Sanitize(h[cut..]) == KeepFrom(h, cut)
  {
    hide KeepTools, KeepAssistant, Answered, AnsweredAt, Block, After;
    var answered := AnsweredAt(h, cut);
    Appended(KeepAssistant(h[cut], answered), KeepTools(Block(h[cut..]), answered),
      KeepFrom(h, cut + 1 + |Block(h[cut..])|));
  }

  /** Normalising keeps of each message exactly what is answered in the history it was given: no
      call that was answered and no tool message that answers one is lost, whatever else is. */
  lemma KeepsExactly(h: seq<Message>)
    ensures Sanitize(h) == KeepFrom(h, 0)
  {
    assert h[0..] == h;
    SanitizedFrom(h, 0);
  }
}
