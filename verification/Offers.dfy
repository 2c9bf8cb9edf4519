/** The families an end offers and what its far end knows of them: versioned announcements that
    may be lost, repeated or come out of order. */
module Offers {
  import opened Options

  /** The families offered, each with the number of its registration; ordered by `version`. */
  datatype Offer = Offer(version: nat, since: map<string, nat>)

  /** A registration held: dropping it unregisters the family. */
  datatype Token = Token(family: string, since: nat)

  /** One end, and the far end's view of it. `due`: changes not announced yet, each by its own
      thread. History: every announcement made and the family of every registration. */
  datatype Ends = Ends(
    handlers: map<string, nat>, announced: nat, offered: nat, attached: bool, due: nat, tokens: set<Token>,
    view: Offer,
    sent: seq<Offer>, registrations: seq<string>)

  function Opened(): Ends {
    Ends(map[], 0, 0, false, 0, {}, Offer(0, map[]), [], [])
  }

  predicate CanRegister(family: string) {
    family != "" && family != "link" && '.' !in family && ':' !in family
  }

  /** What an end offers, as the announcement after the last. */
  function NextOffers(s: Ends): Offer {
    Offer(s.announced + 1, s.handlers)
  }

  datatype Act =
    | Register(family: string)
    | DropToken(token: Token)
    | Announce                    // one change due is announced
    | Attach | Detach
    | Deliver(index: nat)         // an announcement made arrives, again or not

  /** Serve a family, under a new registration; refused when it is served, or cannot be. */
  function Registered(s: Ends, family: string): Ends {
    if !CanRegister(family) || family in s.handlers then s
    else
      var since := s.offered + 1;
      s.(offered := since, handlers := s.handlers[family := since], tokens := s.tokens + {Token(family, since)},
         due := s.due + 1, registrations := s.registrations + [family])
  }

  /** A registration dropped unregisters its family, whoever serves it now. */
  function Dropped(s: Ends, token: Token): Ends {
    var t := s.(tokens := s.tokens - {token});
    if token.family in s.handlers then t.(handlers := s.handlers - {token.family}, due := s.due + 1) else t
  }

  function Announced(s: Ends): Ends
    requires s.due > 0
  {
    var t := s.(due := s.due - 1);
    if !s.attached then t else t.(announced := s.announced + 1, sent := s.sent + [NextOffers(s)])
  }

  /** The view after an announcement came: the newer of the two. */
  function Received(view: Offer, offer: Offer): Offer {
    if offer.version <= view.version then view else offer
  }

  function Step(s: Ends, act: Act): Ends {
    match act
    case Register(family) => Registered(s, family)
    case DropToken(token) => if token in s.tokens then Dropped(s, token) else s
    case Announce => if s.due > 0 then Announced(s) else s
    case Attach => s.(attached := true, due := s.due + 1)
    case Detach => s.(attached := false, handlers := map[])
    case Deliver(i) => if i < |s.sent| then s.(view := Received(s.view, s.sent[i])) else s
  }

  function Play(acts: seq<Act>): Ends {
    if acts == [] then Opened() else Step(Play(acts[..|acts| - 1]), acts[|acts| - 1])
  }

  /** Which offer of `family` a view is of: none when it is not in it. */
  function Epoch(o: Offer, family: string): Option<nat> {
    if family in o.since then Some(o.since[family]) else None
  }

  // ── What is kept ────────────────────────────────────────────────

  /** Each registration has its own number, in order. */
  ghost predicate NumbersOk(since: map<string, nat>, registrations: seq<string>) {
    forall f <- since :: 1 <= since[f] <= |registrations| && registrations[since[f] - 1] == f
  }

  /** `later` was offered after `earlier`: a family in both is of the same registration or of a
      newer one. */
  ghost predicate NotBefore(earlier: map<string, nat>, later: map<string, nat>) {
    forall f :: f in earlier && f in later ==> earlier[f] <= later[f]
  }

  /** A family seen, then not, then seen again was registered anew. */
  ghost predicate Renewed(first: map<string, nat>, between: map<string, nat>, last: map<string, nat>) {
    forall f :: f in first && f !in between && f in last ==> first[f] < last[f]
  }

  ghost predicate Sound(s: Ends) {
    && s.offered == |s.registrations| && s.announced == |s.sent|
    && NumbersOk(s.handlers, s.registrations)
    && (forall i :: 0 <= i < |s.sent| ==> s.sent[i].version == i + 1 && NumbersOk(s.sent[i].since, s.registrations))
    && (s.view == Offer(0, map[]) || (1 <= s.view.version <= |s.sent| && s.view == s.sent[s.view.version - 1]))
    && (s.attached && s.due == 0 ==> s.sent != [] && s.sent[|s.sent| - 1].since == s.handlers)
    && (forall t <- s.tokens :: 1 <= t.since <= s.offered && s.registrations[t.since - 1] == t.family)
  }

  /** The order of what was announced, and of what is offered now. */
  ghost predicate InOrder(s: Ends) {
    && (forall i, j :: 0 <= i < j < |s.sent| ==> NotBefore(s.sent[i].since, s.sent[j].since))
    && (forall i :: 0 <= i < |s.sent| ==> NotBefore(s.sent[i].since, s.handlers))
    && (forall i, j, k :: 0 <= i < j < k < |s.sent| ==> Renewed(s.sent[i].since, s.sent[j].since, s.sent[k].since))
    && (forall i, j :: 0 <= i < j < |s.sent| ==> Renewed(s.sent[i].since, s.sent[j].since, s.handlers))
  }

  lemma RegisteredSound(s: Ends, family: string)
    requires Sound(s)
    ensures Sound(Registered(s, family))
  {}

  lemma AnnouncedSound(s: Ends)
    requires Sound(s) && s.due > 0
    ensures Sound(Announced(s))
  {}

  lemma DroppedSound(s: Ends, token: Token)
    requires Sound(s)
    ensures Sound(Dropped(s, token))
  {}

  lemma SessionSound(s: Ends, attached: bool, due: nat)
    requires Sound(s) && due > 0
    ensures Sound(s.(attached := attached, due := due))
  {
    hide NumbersOk;
  }

  lemma DetachedSound(s: Ends)
    requires Sound(s)
    ensures Sound(s.(attached := false, handlers := map[]))
  {}

  lemma DeliveredSound(s: Ends, i: nat)
    requires Sound(s) && i < |s.sent|
    ensures Sound(s.(view := Received(s.view, s.sent[i])))
  {
    hide NumbersOk;
  }

  lemma StepSound(s: Ends, act: Act)
    requires Sound(s)
    ensures Sound(Step(s, act))
  {
    hide Registered, Announced, Dropped;
    match act
    case Register(family) => RegisteredSound(s, family);
    case Announce => if s.due > 0 { AnnouncedSound(s); }
    case DropToken(token) => if token in s.tokens { DroppedSound(s, token); }
    case Attach => SessionSound(s, true, s.due + 1);
    case Detach => DetachedSound(s);
    case Deliver(i) => if i < |s.sent| { DeliveredSound(s, i); }
  }

  lemma RegisteredInOrder(s: Ends, family: string)
    requires Sound(s) && InOrder(s)
    ensures InOrder(Registered(s, family))
  {
    var t := Registered(s, family);
    if t != s {
      forall i | 0 <= i < |s.sent| ensures NotBefore(s.sent[i].since, t.handlers) {
        assert NotBefore(s.sent[i].since, s.handlers);
      }
      forall i, j | 0 <= i < j < |s.sent| ensures Renewed(s.sent[i].since, s.sent[j].since, t.handlers) {
        assert Renewed(s.sent[i].since, s.sent[j].since, s.handlers);
      }
    }
  }

  /** Fewer families offered are in the same order. */
  lemma FewerInOrder(s: Ends, t: Ends)
    requires InOrder(s) && t.sent == s.sent &&
      forall f <- t.handlers :: f in s.handlers && t.handlers[f] == s.handlers[f]
    ensures InOrder(t)
  {
    forall i | 0 <= i < |s.sent| ensures NotBefore(s.sent[i].since, t.handlers) {
      assert NotBefore(s.sent[i].since, s.handlers);
    }
    forall i, j | 0 <= i < j < |s.sent| ensures Renewed(s.sent[i].since, s.sent[j].since, t.handlers) {
      assert Renewed(s.sent[i].since, s.sent[j].since, s.handlers);
    }
  }

  lemma AnnouncedInOrder(s: Ends)
    requires Sound(s) && InOrder(s) && s.due > 0
    ensures InOrder(Announced(s))
  {
    hide NotBefore, Renewed;
    var t := Announced(s);
    if s.attached {
      NowNotBefore(s.handlers);
      forall i | 0 <= i < |s.sent| ensures Renewed(s.sent[i].since, s.handlers, s.handlers) {
        NowRenewed(s.sent[i].since, s.handlers);
      }
    }
  }

  lemma NowNotBefore(now: map<string, nat>)
    ensures NotBefore(now, now)
  {}

  lemma NowRenewed(first: map<string, nat>, now: map<string, nat>)
    ensures Renewed(first, now, now)
  {}

  lemma StepInOrder(s: Ends, act: Act)
    requires Sound(s) && InOrder(s)
    ensures InOrder(Step(s, act))
  {
    match act
    case Register(family) => RegisteredInOrder(s, family);
    case Announce => if s.due > 0 { AnnouncedInOrder(s); }
    case _ => FewerInOrder(s, Step(s, act));
  }

  lemma {:induction false} PlaySound(acts: seq<Act>)
    ensures Sound(Play(acts)) && InOrder(Play(acts))
    decreases |acts|
  {
    if acts != [] {
      PlaySound(acts[..|acts| - 1]);
      StepSound(Play(acts[..|acts| - 1]), acts[|acts| - 1]);
      StepInOrder(Play(acts[..|acts| - 1]), acts[|acts| - 1]);
    }
  }

  // ── Convergence ─────────────────────────────────────────────────

  /** A step announces at most what is offered at that moment. */
  lemma SendsNow(s: Ends, act: Act)
    ensures Step(s, act).sent == s.sent || (Step(s, act).sent == s.sent + [NextOffers(s)])
  {}

  /** What the far end believes was true: it is nothing yet, or what was offered at some moment. */
  lemma {:induction false} SentWasTrue(acts: seq<Act>, i: nat) returns (n: nat)
    requires i < |Play(acts).sent|
    ensures n <= |acts| && Play(acts[..n]).handlers == Play(acts).sent[i].since
    decreases |acts|
  {
    hide Step;
    var front := acts[..|acts| - 1];
    SendsNow(Play(front), acts[|acts| - 1]);
    if i < |Play(front).sent| {
      n := SentWasTrue(front, i);
      assert acts[..n] == front[..n];
    } else {
      n := |front|;
    }
  }

  lemma ViewWasTrue(acts: seq<Act>) returns (n: nat)
    ensures n <= |acts|
    ensures Play(acts).view == Offer(0, map[]) || Play(acts[..n]).handlers == Play(acts).view.since
  {
    PlaySound(acts);
    n := 0;
    if Play(acts).view != Offer(0, map[]) { n := SentWasTrue(acts, Play(acts).view.version - 1); }
  }

  /** Once the newest announcement came, whatever came before or comes again, and no change is
      left to announce, the far end knows exactly what is offered. */
  lemma Converges(acts: seq<Act>, more: seq<Act>, newest: nat)
    requires var s := Play(acts); s.attached && s.due == 0 && newest + 1 == |s.sent|
    requires forall i :: 0 <= i < |more| ==> more[i].Deliver?
    requires Deliver(newest) in more
    ensures Play(acts + more).view.since == Play(acts).handlers
    ensures Play(acts + more).handlers == Play(acts).handlers
  {
    PlaySound(acts);
    Delivered(acts, more, newest);
  }

  lemma {:induction false} Delivered(acts: seq<Act>, more: seq<Act>, newest: nat)
    requires forall i :: 0 <= i < |more| ==> more[i].Deliver?
    requires newest + 1 == |Play(acts).sent|
    ensures var s, t := Play(acts), Play(acts + more);
      t == s.(view := t.view) && (Deliver(newest) in more ==> t.view == s.sent[newest])
    decreases |more|
  {
    if more == [] {
      assert acts + more == acts;
    } else {
      var front, last := more[..|more| - 1], more[|more| - 1];
      assert acts + more == (acts + front) + [last] && more == front + [last];
      hide Play, InOrder, Sound;
      PlayMore(acts + front, last);
      Delivered(acts, front, newest);
      PlaySound(acts + front);
      PlaySound(acts);
      DeliveredOne(Play(acts), Play(acts + front), last.index, newest);
    }
  }

  lemma PlayMore(acts: seq<Act>, act: Act)
    ensures Play(acts + [act]) == Step(Play(acts), act)
  {
    assert (acts + [act])[..|acts|] == acts;
  }

  /** One announcement more: the newest is taken, and stays. */
  lemma DeliveredOne(s: Ends, t: Ends, index: nat, newest: nat)
    requires Sound(s) && Sound(t) && t == s.(view := t.view) && newest + 1 == |s.sent|
    ensures var u := Step(t, Deliver(index));
      u == s.(view := u.view) && (index == newest || t.view == s.sent[newest] ==> u.view == s.sent[newest])
  {}

  // ── Epochs ──────────────────────────────────────────────────────

  /** Two offers ever made share a family's epoch only if it is one registration, which was of
      that family; and a later offer's epoch is never an earlier registration's. */
  lemma EpochsAreRegistrations(acts: seq<Act>, i: nat, j: nat, family: string, other: string)
    requires var sent := Play(acts).sent; i < |sent| && j < |sent| && family in sent[i].since && other in sent[j].since
    ensures var sent := Play(acts).sent;
      && (sent[i].since[family] == sent[j].since[other] ==> family == other)
      && (i <= j && family == other ==> sent[i].since[family] <= sent[j].since[other])
  {
    PlaySound(acts);
    var s := Play(acts);
    assert NumbersOk(s.sent[i].since, s.registrations) && NumbersOk(s.sent[j].since, s.registrations);
    if i < j { assert NotBefore(s.sent[i].since, s.sent[j].since); }
  }

  // ── The follower ────────────────────────────────────────────────

  /** What a follower of a family tells, as it reads one view after another: something new each
      time the family's offer is another than the one it told last. */
  function Told(epochs: seq<Option<nat>>): seq<nat> {
    if epochs == [] then []
    else
      var front, last := epochs[..|epochs| - 1], epochs[|epochs| - 1];
      Told(front) + if last.Some? && (front == [] || last != front[|front| - 1]) then [last.value] else []
  }

  /** The loop of the follower; `announcedTo` is the offer it told last, or that there was none. */
  method Follow(epochs: seq<Option<nat>>) returns (told: seq<nat>)
    ensures told == Told(epochs)
  {
    told := [];
    var announcedTo: Option<nat> := None;
    for i := 0 to |epochs|
      invariant told == Told(epochs[..i])
      invariant announcedTo == if i == 0 then None else epochs[i - 1]
    {
      assert epochs[..i + 1][..i] == epochs[..i];
      var offered := epochs[i];
      if offered.Some? && offered != announcedTo { told := told + [offered.value]; }
      announcedTo := offered;
    }
    assert epochs[..|epochs|] == epochs;
  }

  /** The epochs of views read in their order: each view is an offer made, or none yet. */
  ghost predicate ReadInOrder(sent: seq<Offer>, family: string, versions: seq<nat>, epochs: seq<Option<nat>>) {
    && |versions| == |epochs|
    && (forall i :: 0 <= i < |versions| ==> versions[i] <= |sent|)
    && (forall i, j :: 0 <= i < j < |versions| ==> versions[i] <= versions[j])
    && (forall i :: 0 <= i < |versions| ==>
       epochs[i] == if versions[i] == 0 then None else Epoch(sent[versions[i] - 1], family))
  }

  /** A view read before has no later epoch; and none equal, when in between there was none. */
  lemma EpochsRise(s: Ends, family: string, versions: seq<nat>, epochs: seq<Option<nat>>, i: nat, j: nat)
    requires InOrder(s) && ReadInOrder(s.sent, family, versions, epochs) && i < j < |epochs| && epochs[i].Some?
    requires epochs[j].Some?
    ensures epochs[i].value <= epochs[j].value
    ensures forall k :: i < k < j && epochs[k] != epochs[j] ==> epochs[i].value < epochs[j].value
  {
    var a, b := versions[i] - 1, versions[j] - 1;
    if a < b { assert NotBefore(s.sent[a].since, s.sent[b].since); }
    forall k | i < k < j && epochs[k] != epochs[j] ensures epochs[i].value < epochs[j].value {
      var m := versions[k] - 1;
      if epochs[k].None? { assert Renewed(s.sent[a].since, s.sent[m].since, s.sent[b].since); }
      else {
        if a < m { assert NotBefore(s.sent[a].since, s.sent[m].since); }
        if m < b { assert NotBefore(s.sent[m].since, s.sent[b].since); }
      }
    }
  }

  /** Every epoch told was read. */
  lemma {:induction false} ToldWasRead(epochs: seq<Option<nat>>)
    ensures forall e <- Told(epochs) :: exists i :: 0 <= i < |epochs| && epochs[i] == Some(e)
    decreases |epochs|
  {
    if epochs != [] {
      var front, last := epochs[..|epochs| - 1], epochs[|epochs| - 1];
      ToldWasRead(front);
      forall e <- Told(epochs) ensures exists i :: 0 <= i < |epochs| && epochs[i] == Some(e) {
        if e in Told(front) {
          var i :| 0 <= i < |front| && front[i] == Some(e);
          assert epochs[i] == Some(e);
        } else {
          assert epochs[|front|] == Some(e);
        }
      }
    }
  }

  /** The next epoch told is greater than every one told before. */
  lemma NextIsGreater(s: Ends, family: string, versions: seq<nat>, epochs: seq<Option<nat>>, e: nat)
    requires InOrder(s) && ReadInOrder(s.sent, family, versions, epochs) && |epochs| >= 2
    requires epochs[|epochs| - 1].Some? && epochs[|epochs| - 2] != epochs[|epochs| - 1]
    requires e in Told(epochs[..|epochs| - 1])
    ensures e < epochs[|epochs| - 1].value
  {
    hide InOrder, ReadInOrder, Told;
    var n := |epochs| - 1;
    ToldWasRead(epochs[..n]);
    var i :| 0 <= i < |epochs[..n]| && epochs[..n][i] == Some(e);
    assert epochs[i] == Some(e);
    EpochsRise(s, family, versions, epochs, i, n);
  }

  ghost predicate Rising(ns: seq<nat>) {
    forall i, j :: 0 <= i < j < |ns| ==> ns[i] < ns[j]
  }

  lemma RisingMore(ns: seq<nat>, n: nat)
    requires Rising(ns) && forall m <- ns :: m < n
    ensures Rising(ns + [n])
  {
    forall i | 0 <= i < |ns| ensures ns[i] < n { assert ns[i] in ns; }
  }

  lemma ReadBefore(sent: seq<Offer>, family: string, versions: seq<nat>, epochs: seq<Option<nat>>, n: nat)
    requires ReadInOrder(sent, family, versions, epochs) && n <= |epochs|
    ensures |versions| == |epochs| && ReadInOrder(sent, family, versions[..n], epochs[..n])
  {}

  /** Of views read in the order they were made, each epoch is told at most once, in rising order. */
  lemma {:induction false} TellsInOrder(acts: seq<Act>, family: string, versions: seq<nat>, epochs: seq<Option<nat>>)
    requires ReadInOrder(Play(acts).sent, family, versions, epochs)
    ensures Rising(Told(epochs))
    decreases |epochs|
  {
    hide Play, InOrder, ReadInOrder, Sound, Rising;
    if epochs == [] {
      NothingTold();
    } else {
      var s, n := Play(acts), |epochs| - 1;
      var front, last := epochs[..n], epochs[n];
      PlaySound(acts);
      ReadBefore(s.sent, family, versions, epochs, n);
      TellsInOrder(acts, family, versions[..n], front);
      if last.Some? && (front == [] || last != front[n - 1]) {
        forall e <- Told(front) ensures e < last.value {
          assert front != [] && front[n - 1] == epochs[n - 1];
          NextIsGreater(s, family, versions, epochs, e);
        }
        RisingMore(Told(front), last.value);
      } else {
        assert Told(front) + [] == Told(front);
      }
    }
  }

  lemma NothingTold()
    ensures Told([]) == [] && Rising([])
  {}

  lemma StepRises(s: Ends, act: Act)
    ensures var t := Step(s, act);
      s.view.version <= t.view.version && s.sent <= t.sent && s.registrations <= t.registrations
  {}

  /** The view only becomes newer, however announcements arrive. */
  lemma {:induction false} ViewRises(acts: seq<Act>, n: nat)
    requires n <= |acts|
    ensures var s, t := Play(acts[..n]), Play(acts); s.view.version <= t.view.version && s.sent <= t.sent
    decreases |acts|
  {
    hide Step;
    if n == |acts| {
      assert acts[..n] == acts;
    } else {
      var front := acts[..|acts| - 1];
      assert front[..n] == acts[..n];
      ViewRises(front, n);
      StepRises(Play(front), acts[|acts| - 1]);
    }
  }

  /** The view read at one moment, as one of the offers made over the whole run. */
  lemma ViewIsSent(acts: seq<Act>, n: nat)
    requires n <= |acts|
    ensures var view, sent := Play(acts[..n]).view, Play(acts).sent;
      && view.version <= |sent|
      && forall family :: Epoch(view, family) == if view.version ==
         0 then None else Epoch(sent[view.version - 1], family)
  {
    ViewRises(acts, n);
    PlaySound(acts[..n]);
    hide Play, InOrder;
  }

  /** `epochs` is what a follower of `family` reads: the view at one moment after another. */
  ghost predicate ReadsAt(acts: seq<Act>, family: string, moments: seq<nat>, epochs: seq<Option<nat>>) {
    && |moments| == |epochs|
    && (forall i :: 0 <= i < |moments| ==> moments[i] <= |acts|)
    && (forall i, j :: 0 <= i < j < |moments| ==> moments[i] <= moments[j])
    && (forall i :: 0 <= i < |moments| ==> epochs[i] == Epoch(Play(acts[..moments[i]]).view, family))
  }

  lemma ReadsRise(acts: seq<Act>, family: string, moments: seq<nat>, epochs: seq<Option<nat>>, i: nat, j: nat)
    requires ReadsAt(acts, family, moments, epochs) && i < j < |moments|
    ensures Play(acts[..moments[i]]).view.version <= Play(acts[..moments[j]]).view.version
  {
    assert acts[..moments[j]][..moments[i]] == acts[..moments[i]];
    ViewRises(acts[..moments[j]], moments[i]);
    hide Play;
  }

  /** The last epoch read is the last told, when the family is offered then. */
  lemma {:induction false} ToldIsLatest(epochs: seq<Option<nat>>)
    requires epochs != [] && epochs[|epochs| - 1].Some?
    ensures Told(epochs) != [] && Some(Told(epochs)[|Told(epochs)| - 1]) == epochs[|epochs| - 1]
    decreases |epochs|
  {
    var front, last := epochs[..|epochs| - 1], epochs[|epochs| - 1];
    if front != [] && last == front[|front| - 1] { ToldIsLatest(front); }
  }

  /** A follower that reads the view now and then, over any run, with announcements lost, repeated
      and out of order: it tells each offer of the family at most once, in the order they were made,
      and the last it read is told. */
  lemma ToldOnceInOrder(acts: seq<Act>, family: string, moments: seq<nat>, epochs: seq<Option<nat>>)
    requires ReadsAt(acts, family, moments, epochs)
    ensures Rising(Told(epochs))
    ensures epochs != [] && epochs[|epochs| - 1].Some? ==>
      Told(epochs) != [] && Some(Told(epochs)[|Told(epochs)| - 1]) == epochs[|epochs| - 1]
  {
    var versions := seq(|moments|, i requires 0 <= i < |moments| &&
      moments[i] <= |acts| => Play(acts[..moments[i]]).view.version);
    hide Play, Epoch, Told, Rising;
    forall i | 0 <= i < |moments| { ViewIsSent(acts, moments[i]); }
    forall i, j | 0 <= i < j < |moments| ensures versions[i] <= versions[j] {
      ReadsRise(acts, family, moments, epochs, i, j);
    }
    assert ReadInOrder(Play(acts).sent, family, versions, epochs);
    TellsInOrder(acts, family, versions, epochs);
    if epochs != [] && epochs[|epochs| - 1].Some? { ToldIsLatest(epochs); }
  }

  // ── Dropping a registration ─────────────────────────────────────

  /** The registrations held that serve their families. */
  predicate Serves(s: Ends, token: Token) {
    token.family in s.handlers && s.handlers[token.family] == token.since
  }

  /** Dropping the token unregisters a family that another registration serves. */
  ghost predicate DropsAnother(s: Ends, token: Token) {
    exists t: Token :: t != token && Serves(s, t) && !Serves(Dropped(s, token), t)
  }

  lemma DropsWhoeverServes(s: Ends, token: Token)
    ensures DropsAnother(s, token) <==> token.family in s.handlers && s.handlers[token.family] != token.since
  {
    if token.family in s.handlers && s.handlers[token.family] != token.since {
      var other := Token(token.family, s.handlers[token.family]);
      assert other != token && Serves(s, other) && !Serves(Dropped(s, token), other);
    }
  }

  /** `act` unregisters what `token` registered, by a detach or by another's drop. */
  predicate LostBy(s: Ends, act: Act, token: Token) {
    token.since <= |s.registrations| &&
    (act.Detach? || (act.DropToken? && act.token in s.tokens && act.token != token && act.token.family == token.family))
  }

  /** Since it was made, a registration was unregistered by a detach or by another's drop. */
  predicate Lost(acts: seq<Act>, token: Token) {
    acts != [] &&
    (Lost(acts[..|acts| - 1], token) || LostBy(Play(acts[..|acts| - 1]), acts[|acts| - 1], token))
  }

  /** A token held serves its family, until it is lost; then only a later registration can. */
  ghost predicate TokenOk(s: Ends, token: Token, lost: bool) {
    if lost then token.family in s.handlers ==> s.handlers[token.family] > token.since else Serves(s, token)
  }

  lemma {:induction false} LostWasMade(acts: seq<Act>, token: Token)
    requires Lost(acts, token)
    ensures token.since <= |Play(acts).registrations|
    decreases |acts|
  {
    hide Step;
    var front, last := acts[..|acts| - 1], acts[|acts| - 1];
    StepRises(Play(front), last);
    if Lost(front, token) { LostWasMade(front, token); }
  }

  lemma StepToken(s: Ends, act: Act, token: Token, lost: bool)
    requires Sound(s) && token in s.tokens && TokenOk(s, token, lost) && token in Step(s, act).tokens
    ensures TokenOk(Step(s, act), token, lost || LostBy(s, act, token))
  {
    assert 1 <= token.since <= s.offered;
  }

  lemma {:induction false} HeldOrLost(acts: seq<Act>, token: Token)
    requires token in Play(acts).tokens
    ensures TokenOk(Play(acts), token, Lost(acts, token))
    decreases |acts|
  {
    var front, last := acts[..|acts| - 1], acts[|acts| - 1];
    PlaySound(front);
    hide Sound, InOrder;
    if token in Play(front).tokens {
      HeldOrLost(front, token);
      hide TokenOk, LostBy, Step;
      StepToken(Play(front), last, token, Lost(front, token));
    } else {
      JustMade(Play(front), last, token);
      hide TokenOk, Step;
      if Lost(front, token) { LostWasMade(front, token); }
    }
  }

  lemma JustMade(s: Ends, act: Act, token: Token)
    requires Sound(s) && token !in s.tokens && token in Step(s, act).tokens
    ensures TokenOk(Step(s, act), token, false) && token.since == |s.registrations| + 1
  {}

  /** Over every run, a registration that is dropped unregisters another's family exactly when the
      family is served and its own was lost before: to a detach, or to a drop that did the same. */
  lemma DropsAnotherExactly(acts: seq<Act>, token: Token)
    requires token in Play(acts).tokens
    ensures DropsAnother(Play(acts), token) <==> token.family in Play(acts).handlers && Lost(acts, token)
  {
    HeldOrLost(acts, token);
    DropsWhoeverServes(Play(acts), token);
    hide DropsAnother, Play, Lost;
  }

  predicate NoDetach(acts: seq<Act>) {
    forall i :: 0 <= i < |acts| ==> !acts[i].Detach?
  }

  /** The registrations held are those that serve. */
  ghost predicate AllHeld(s: Ends) {
    && (forall t <- s.tokens :: Serves(s, t))
    && (forall f <- s.handlers :: Token(f, s.handlers[f]) in s.tokens)
  }

  lemma StepHeld(s: Ends, act: Act)
    requires AllHeld(s) && Sound(s) && !act.Detach?
    ensures AllHeld(Step(s, act))
  {
    var t := Step(s, act);
    forall token <- t.tokens ensures Serves(t, token) { assert token in s.tokens ==> Serves(s, token); }
    forall f <- t.handlers ensures Token(f, t.handlers[f]) in t.tokens {
      if f in s.handlers { assert Token(f, s.handlers[f]) in s.tokens; }
    }
  }

  /** While the session is not detached, the registrations held are those that serve their
      families: so dropping one drops that one. */
  lemma {:induction false} HeldServes(acts: seq<Act>)
    requires NoDetach(acts)
    ensures AllHeld(Play(acts))
    ensures forall t <- Play(acts).tokens ::
      t.family in Play(acts).handlers ==> Play(acts).handlers[t.family] == t.since
    decreases |acts|
  {
    if acts != [] {
      HeldServes(acts[..|acts| - 1]);
      PlaySound(acts[..|acts| - 1]);
      StepHeld(Play(acts[..|acts| - 1]), acts[|acts| - 1]);
      hide Sound, InOrder;
    }
    forall t <- Play(acts).tokens ensures t.family in Play(acts).handlers ==> Play(acts).handlers[t.family] == t.since {
      assert Serves(Play(acts), t);
    }
  }

  /** After a detach it need not: a registration held from before drops a later one's family, and
      that one, held with nothing served, the next one's. */
  lemma DetachedDropsAnother()
    ensures var acts := [Register("services"), Detach, Register("services")];
      Token("services", 1) in Play(acts).tokens && DropsAnother(Play(acts), Token("services", 1))
    ensures var acts := [Register("services"), Detach, Register("services")];
      var more := acts + [DropToken(Token("services", 1)), Register("services")];
      Token("services", 2) in Play(more).tokens && DropsAnother(Play(more), Token("services", 2))
  {
    var f, one := "services", Token("services", 1);
    var s1 := PlayMoreIs([], Register(f), Opened());
    var s2 := PlayMoreIs([Register(f)], Detach, s1);
    var s3 := PlayMoreIs([Register(f)] + [Detach], Register(f), s2);
    var s4 := PlayMoreIs([Register(f)] + [Detach] + [Register(f)], DropToken(one), s3);
    var s5 := PlayMoreIs([Register(f)] + [Detach] + [Register(f)] + [DropToken(one)], Register(f), s4);
    assert CanRegister(f);
    assert [Register(f)] + [Detach] + [Register(f)] == [Register(f), Detach, Register(f)];
    assert [Register(f)] + [Detach] + [Register(f)] + [DropToken(one)] + [Register(f)] ==
      [Register(f), Detach, Register(f)] + [DropToken(one), Register(f)];
    DropsWhoeverServes(s3, one);
    DropsWhoeverServes(s5, Token(f, 2));
    hide DropsAnother, Play;
  }

  lemma PlayMoreIs(acts: seq<Act>, act: Act, before: Ends) returns (s: Ends)
    requires Play(acts) == before
    ensures s == Step(before, act) == Play(acts + [act])
  {
    PlayMore(acts, act);
    s := Step(before, act);
  }

  // ── An end, as it runs ──────────────────────────────────────────

  /** The operations of one session: the families served, and what the far end offers. */
  class Operations {
    var handlers: map<string, nat>
    var announced: nat
    var offered: nat
    var attached: bool
    var remote: Offer
    ghost var due: nat
    ghost var tokens: set<Token>
    ghost var view: Offer
    ghost var sent: seq<Offer>
    ghost var registrations: seq<string>

    ghost function State(): Ends
      reads this
    {
      Ends(handlers, announced, offered, attached, due, tokens, view, sent, registrations)
    }

    constructor ()
      ensures State() == Opened() && remote == Offer(0, map[])
    {
      handlers, announced, offered, attached, remote := map[], 0, 0, false, Offer(0, map[]);
      due, tokens, view, sent, registrations := 0, {}, Offer(0, map[]), [], [];
    }

    /** Serve a family: the registration, or none when it is served already or cannot be. */
    method Register(family: string) returns (token: Option<Token>)
      modifies this
      ensures State() == Registered(old(State()), family) && remote == old(remote)
      ensures token.Some? ==>
        token.value == Token(family, offered) && token.value in tokens && Serves(State(), token.value)
      ensures token.None? <==> State() == old(State())
    {
      if family == "" || family == "link" || '.' in family || ':' in family || family in handlers { return None; }
      offered := offered + 1;
      handlers := handlers[family := offered];
      token := Some(Token(family, offered));
      due, tokens, registrations := due + 1, tokens + {token.value}, registrations + [family];
    }

    /** Drop a registration: whether a family went, which is to be announced. */
    method DropToken(token: Token) returns (changed: bool)
      modifies this
      ensures State() == Dropped(old(State()), token) && remote == old(remote)
      ensures changed <==> token.family in old(handlers)
    {
      tokens := tokens - {token};
      changed := token.family in handlers;
      if changed {
        handlers := handlers - {token.family};
        due := due + 1;
      }
    }

    /** Announce what is offered now, under the next version. */
    method Announce() returns (offer: Option<Offer>)
      requires due > 0
      modifies this
      ensures State() == Announced(old(State())) && remote == old(remote)
      ensures offer == if attached then Some(NextOffers(old(State()))) else None
    {
      due := due - 1;
      if !attached { return None; }
      announced := announced + 1;
      var now := Offer(announced, handlers);
      sent := sent + [now];
      offer := Some(now);
    }

    /** An announcement of the far end's arrives; whether it is news. */
    method Receive(offer: Offer) returns (changed: bool)
      modifies this`remote
      ensures remote == Received(old(remote), offer) && changed == (offer.version > old(remote).version)
    {
      changed := offer.version > remote.version;
      if changed { remote := offer; }
    }

    /** Forget the session, and every family with it. */
    method Detach()
      modifies this`handlers, this`attached
      ensures State() == Step(old(State()), Act.Detach)
    {
      attached := false;
      handlers := map[];
    }
  }
}
