/** Which families an end serves, which registrations are held and what is announced, told by what
    was done. */
module Served {
  import opened Offers

  /** A name a family can have. */
  predicate IsFamily(family: string) {
    family != "" && family != "link" && forall i :: 0 <= i < |family| ==> family[i] != '.' && family[i] != ':'
  }

  lemma FamiliesExactly(family: string)
    ensures CanRegister(family) <==> IsFamily(family)
  {}

  // ── Registering ─────────────────────────────────────────────────

  /** A family is served anew exactly when it can be one and is not served; then under the number
      after all registrations made, and held. */
  lemma RegistersExactly(acts: seq<Act>, family: string)
    ensures var s, t := Play(acts), Play(acts + [Register(family)]);
      var since := |s.registrations| + 1;
      if IsFamily(family) && family !in s.handlers then
        && t.handlers == s.handlers[family := since] && t.registrations == s.registrations + [family]
        && t.tokens == s.tokens + {Token(family, since)} && t.due == s.due + 1
        && t.sent == s.sent && t.view == s.view && t.attached == s.attached
      else
        t == s
  {
    PlaySound(acts);
    PlayMore(acts, Register(family));
    FamiliesExactly(family);
    hide Play, CanRegister, IsFamily, NumbersOk, InOrder;
  }

  /** The act at `j` ends the service of a family: a detach, or a registration of it dropped. */
  predicate EndsIt(acts: seq<Act>, j: nat, family: string)
    requires j < |acts|
  {
    acts[j].Detach? ||
    (acts[j].DropToken? && acts[j].token.family == family && acts[j].token in Play(acts[..j]).tokens)
  }

  ghost predicate ServedSince(acts: seq<Act>, i: nat, family: string) {
    i < |acts| && acts[i] == Register(family) && forall j :: i < j < |acts| ==> !EndsIt(acts, j, family)
  }

  lemma StepServes(s: Ends, act: Act, family: string)
    ensures family in Step(s, act).handlers <==>
      || (act == Register(family) && IsFamily(family))
      || (family in s.handlers &&
          !(act.Detach? || (act.DropToken? && act.token.family == family && act.token in s.tokens)))
  {
    FamiliesExactly(family);
  }

  lemma EndsAlike(acts: seq<Act>, act: Act, j: nat, family: string)
    requires j < |acts|
    ensures EndsIt(acts + [act], j, family) == EndsIt(acts, j, family)
  {
    assert (acts + [act])[..j] == acts[..j];
  }

  lemma SinceMore(acts: seq<Act>, act: Act, i: nat, family: string)
    requires i < |acts|
    ensures ServedSince(acts + [act], i, family) <==>
      ServedSince(acts, i, family) && !EndsIt(acts + [act], |acts|, family)
  {
    hide EndsIt;
    forall j | 0 <= j < |acts| ensures EndsIt(acts + [act], j, family) == EndsIt(acts, j, family) {
      EndsAlike(acts, act, j, family);
    }
  }

  /** Over every run, a family is served exactly when it can be one, was registered, and since then
      neither a detach came nor a registration of it was dropped. */
  lemma {:induction false} ServesExactly(acts: seq<Act>, family: string)
    ensures family in Play(acts).handlers <==> IsFamily(family) && exists i: nat :: ServedSince(acts, i, family)
    decreases |acts|
  {
    if acts != [] {
      var front, act := acts[..|acts| - 1], acts[|acts| - 1];
      assert acts == front + [act] && acts[..|front|] == front;
      ServesExactly(front, family);
      StepServes(Play(front), act, family);
      hide Step, IsFamily;
      forall i: nat | i < |front|
        ensures ServedSince(acts, i, family) <==> ServedSince(front, i, family) && !EndsIt(acts, |front|, family)
      {
        SinceMore(front, act, i, family);
      }
      if act == Register(family) { assert ServedSince(acts, |front|, family); }
      if i: nat :| ServedSince(front, i, family) && !EndsIt(acts, |front|, family) {
        assert ServedSince(acts, i, family);
      }
    }
  }

  // ── Registrations held ──────────────────────────────────────────

  /** The act at `i` made the registration `token`, and it was not dropped since. */
  ghost predicate HeldSince(acts: seq<Act>, i: nat, token: Token) {
    && i < |acts| && acts[i] == Register(token.family) && IsFamily(token.family)
    && token.family !in Play(acts[..i]).handlers && token.since == |Play(acts[..i]).registrations| + 1
    && forall j :: i < j < |acts| ==> acts[j] != DropToken(token)
  }

  lemma StepHolds(s: Ends, act: Act, token: Token)
    requires Sound(s)
    ensures token in Step(s, act).tokens <==>
      || (act == Register(token.family) && IsFamily(token.family) && token.family !in s.handlers &&
          token.since == |s.registrations| + 1)
      || (token in s.tokens && act != DropToken(token))
  {
    FamiliesExactly(token.family);
    hide NumbersOk, CanRegister, IsFamily;
  }

  lemma HeldMore(acts: seq<Act>, act: Act, i: nat, token: Token)
    requires i < |acts|
    ensures HeldSince(acts + [act], i, token) <==> HeldSince(acts, i, token) && act != DropToken(token)
  {
    hide IsFamily;
    assert (acts + [act])[..i] == acts[..i];
    assert (acts + [act])[|acts|] == act;
    assert forall j :: 0 <= j < |acts| ==> (acts + [act])[j] == acts[j];
  }

  /** Over every run, a registration is held exactly when it was made and not dropped since: a
      detach does not take it. */
  lemma {:induction false} HeldExactly(acts: seq<Act>, token: Token)
    ensures token in Play(acts).tokens <==> exists i: nat :: HeldSince(acts, i, token)
    decreases |acts|
  {
    if acts != [] {
      var front, act := acts[..|acts| - 1], acts[|acts| - 1];
      assert acts == front + [act] && acts[..|front|] == front;
      HeldExactly(front, token);
      PlaySound(front);
      StepHolds(Play(front), act, token);
      assert HeldSince(acts, |front|, token) <==>
        act == Register(token.family) && IsFamily(token.family) && token.family !in Play(front).handlers &&
        token.since == |Play(front).registrations| + 1;
      hide Step, IsFamily, Sound, InOrder, HeldSince;
      forall i: nat | i < |front|
        ensures HeldSince(acts, i, token) <==> HeldSince(front, i, token) && act != DropToken(token)
      {
        HeldMore(front, act, i, token);
      }
      HeldWithin(acts, token);
      HeldWithin(front, token);
    }
  }

  lemma HeldWithin(acts: seq<Act>, token: Token)
    ensures forall i: nat :: HeldSince(acts, i, token) ==> i < |acts|
  {}

  // ── Announcing ──────────────────────────────────────────────────

  /** The end was attached at `i`, and not detached since. */
  ghost predicate AttachedSince(acts: seq<Act>, i: nat) {
    i < |acts| && acts[i].Attach? && forall j :: i < j < |acts| ==> !acts[j].Detach?
  }

  lemma AttachedMore(acts: seq<Act>, act: Act, i: nat)
    ensures AttachedSince(acts + [act], i) <==>
      (AttachedSince(acts, i) && !act.Detach?) || (act.Attach? && i == |acts|)
  {
    var more := acts + [act];
    assert more[|acts|] == act && forall j :: 0 <= j < |acts| ==> more[j] == acts[j];
  }

  /** Over every run, an end is attached exactly when it was and has not been detached since. */
  lemma {:induction false} AttachedExactly(acts: seq<Act>)
    ensures Play(acts).attached <==> exists i: nat :: AttachedSince(acts, i)
    decreases |acts|
  {
    if acts != [] {
      var front, act := acts[..|acts| - 1], acts[|acts| - 1];
      assert acts == front + [act];
      AttachedExactly(front);
      StepAttached(Play(front), act);
      hide Step;
      forall i: nat
        ensures AttachedSince(acts, i) <==> (AttachedSince(front, i) && !act.Detach?) || (act.Attach? && i == |front|)
      {
        AttachedMore(front, act, i);
      }
      hide AttachedSince;
      if act.Attach? { assert AttachedSince(acts, |front|); }
    }
  }

  lemma StepAttached(s: Ends, act: Act)
    ensures Step(s, act).attached == if act.Attach? then true else if act.Detach? then false else s.attached
  {}

  /** A change due is announced exactly when the end is attached: as what is served now, under the
      next version. What is served, held or seen by the far end stays. */
  lemma AnnouncesExactly(acts: seq<Act>)
    ensures var s, t := Play(acts), Play(acts + [Announce]);
      && t.sent == (if s.due > 0 && s.attached then s.sent + [Offer(|s.sent| + 1, s.handlers)] else s.sent)
      && t.due == (if s.due > 0 then s.due - 1 else 0)
      && t.handlers == s.handlers && t.tokens == s.tokens && t.view == s.view && t.attached == s.attached
  {
    PlaySound(acts);
    PlayMore(acts, Announce);
    hide Play, NumbersOk, InOrder;
  }

  /** The announcement at `k` arrived at some moment of the run. */
  ghost predicate Came(acts: seq<Act>, k: nat) {
    exists i :: 0 <= i < |acts| && acts[i] == Deliver(k) && k < |Play(acts[..i]).sent|
  }

  lemma CameMore(acts: seq<Act>, act: Act, k: nat)
    ensures Came(acts + [act], k) <==> Came(acts, k) || (act == Deliver(k) && k < |Play(acts).sent|)
  {
    var more := acts + [act];
    assert more[..|acts|] == acts && more[|acts|] == act;
    assert forall i :: 0 <= i < |acts| ==> more[i] == acts[i] && more[..i] == acts[..i];
    if Came(acts, k) {
      var i :| 0 <= i < |acts| && acts[i] == Deliver(k) && k < |Play(acts[..i]).sent|;
      assert more[i] == Deliver(k) && k < |Play(more[..i]).sent|;
    }
  }

  /** Over every run, the far end's view is the newest announcement that arrived, in whatever order
      they did; nothing, when none did. */
  lemma {:induction false} ViewIsNewest(acts: seq<Act>)
    ensures var s := Play(acts);
      && (forall k: nat :: Came(acts, k) ==> k < |s.sent| && s.sent[k].version <= s.view.version)
      && (s.view == Offer(0, map[]) || exists k: nat :: Came(acts, k) && k < |s.sent| && s.view == s.sent[k])
    decreases |acts|
  {
    if acts != [] {
      var front, act := acts[..|acts| - 1], acts[|acts| - 1];
      assert acts == front + [act];
      ViewIsNewest(front);
      PlaySound(front);
      var s, t := Play(front), Play(acts);
      SendsNow(s, act);
      StepViews(s, act);
      forall k: nat ensures Came(acts, k) <==> Came(front, k) || (act == Deliver(k) && k < |s.sent|) {
        CameMore(front, act, k);
      }
      hide Step, Came, Sound, InOrder;
      if s.view != Offer(0, map[]) {
        var k: nat :| Came(front, k) && k < |s.sent| && s.view == s.sent[k];
        assert Came(acts, k) && t.sent[k] == s.sent[k];
      }
      if act.Deliver? && act.index < |s.sent| {
        assert Came(acts, act.index) && t.sent[act.index] == s.sent[act.index];
      }
    }
  }

  lemma StepViews(s: Ends, act: Act)
    requires Sound(s)
    ensures Step(s, act).view == if act.Deliver? && act.index < |s.sent| && s.sent[act.index].version > s.view.version
      then s.sent[act.index] else s.view
    ensures act.Deliver? ==> Step(s, act).sent == s.sent
    ensures s.sent <= Step(s, act).sent
  {
    hide NumbersOk;
  }
}
