/** What the session protocol promises, of every run of two sessions. */
module Protocol {
  import opened Options
  import opened Wire
  import opened References
  import opened Endpoint
  import opened Ledger
  import opened Account
  import opened Invariant
  import opened Steps
  import opened Growth
  import opened Network
  import opened Admission
  import Paths

  // ── Faults and references ───────────────────────────────────────

  /** Two honest sessions never fault each other. */
  lemma NeverFaults(s: Setup, moves: seq<Move>)
    requires s.a != s.b
    ensures !Play(Opened(s), moves).faulted
  {
    PlaySound(s, moves);
  }

  lemma Conserved(from: End, to: End, id: nat)
    requires Balanced(from.exports, from.imports, from.log.sent, from.log.got)
    requires Balanced(to.exports, to.imports, to.log.sent, to.log.got)
    requires from.log.got <= to.log.sent && to.log.got <= from.log.sent
    ensures GrantsOf(from.exports, id) ==
      Total(Granted(id), InFlight(from, to)) + Held(to.imports.records, id) + Total(Released(id), InFlight(to, from))
  {
    TotalPrefix(Granted(id), to.log.got, from.log.sent);
    TotalPrefix(Released(id), from.log.got, to.log.sent);
    assert GrantsOf(from.exports, id) + Total(Released(id), from.log.got) == Total(Granted(id), from.log.sent);
    assert Held(to.imports.records, id) + Total(Released(id), to.log.sent) == Total(Granted(id), to.log.got);
  }

  /** The grants an exporter counts are those on their way, those held by every record the far
      end has not given back, and those on their way back. */
  lemma GrantsConserved(s: Setup, moves: seq<Move>, id: nat)
    requires s.a != s.b
    ensures var n := Play(Opened(s), moves);
      && GrantsOf(n.a.exports, id) == Total(Granted(id), InFlight(n.a, n.b)) + Held(n.b.imports.records, id) +
         Total(Released(id), InFlight(n.b, n.a))
      && GrantsOf(n.b.exports, id) == Total(Granted(id), InFlight(n.b, n.a)) + Held(n.a.imports.records, id) +
         Total(Released(id), InFlight(n.a, n.b))
  {
    PlaySound(s, moves);
    var n := Play(Opened(s), moves);
    Conserved(n.a, n.b, id);
    Conserved(n.b, n.a, id);
  }

  predicate AllReleased(records: seq<Record>) {
    forall k :: 0 <= k < |records| ==> records[k].released
  }

  lemma NoneLeft(from: End, to: End)
    requires Balanced(from.exports, from.imports, from.log.sent, from.log.got)
    requires Balanced(to.exports, to.imports, to.log.sent, to.log.got)
    requires from.log.got <= to.log.sent && to.log.got <= from.log.sent
    requires InFlight(from, to) == [] && InFlight(to, from) == []
    requires AllReleased(to.imports.records)
    ensures from.exports.entries == map[]
  {
    forall id: nat ensures id !in from.exports.entries {
      Conserved(from, to, id);
      NoneHeld(to.imports.records, id);
    }
  }

  /** With nothing on its way, a side whose references the other gave back has nothing exported. */
  lemma NothingLeaks(s: Setup, moves: seq<Move>)
    requires s.a != s.b
    requires var n := Play(Opened(s), moves); InFlight(n.a, n.b) == [] && InFlight(n.b, n.a) == []
    ensures var n := Play(Opened(s), moves);
      && (AllReleased(n.b.imports.records) ==> n.a.exports.entries == map[])
      && (AllReleased(n.a.imports.records) ==> n.b.exports.entries == map[])
  {
    PlaySound(s, moves);
    var n := Play(Opened(s), moves);
    hide Sound, InFlight;
    SoundParts(n.a, n.clock);
    SoundParts(n.b, n.clock);
    hide Balanced;
    if AllReleased(n.b.imports.records) { NoneLeft(n.a, n.b); }
    if AllReleased(n.a.imports.records) { NoneLeft(n.b, n.a); }
  }

  lemma {:induction false} NoneHeld(records: seq<Record>, id: nat)
    requires AllReleased(records)
    ensures Held(records, id) == 0
    decreases |records|
  {
    if records != [] { NoneHeld(records[..|records| - 1], id); }
  }

  /** On both sides every id named, and every frame sent, is still there. */
  ghost predicate Keeps(n: Net, n2: Net) {
    && Extends(n.a.exports, n2.a.exports) && n.a.log.sent <= n2.a.log.sent
    && Extends(n.b.exports, n2.b.exports) && n.b.log.sent <= n2.b.log.sent
  }

  lemma KeepsSame(n: Net)
    ensures Keeps(n, n)
  {}

  lemma GrownKeeps(n: Net, a: End)
    requires Grown(n.a, a, n.clock)
    ensures Keeps(n, Net(a, n.b, n.clock + 1, false))
  {
    hide Came;
  }

  lemma SideSound(n: Net)
    requires NetSound(n)
    ensures Sound(n.a, n.clock)
  {
    hide Sound;
  }

  lemma MoveKeeps(n: Net, m: Move)
    requires NetSound(n)
    ensures Keeps(n, MoveA(n, m))
  {
    hide NetSound, Keeps, Perform, Receive, Enabled, Listening, InFlight, Grown;
    KeepsSame(n);
    SideSound(n);
    SoundTables(n.a, n.clock);
    match m
    case Do(_, act) =>
      if CanDo(n, act) {
        PerformGrows(n.a, act, n.clock);
        GrownKeeps(n, Perform(n.a, act, n.clock));
      }
    case Deliver(_) =>
      if CanDeliver(n) {
        DeliverSound(n);
        ReceiveGrows(n.a, InFlight(n.b, n.a)[0], n.clock);
        GrownKeeps(n, Receive(n.a, InFlight(n.b, n.a)[0], n.clock).0);
      }
  }

  lemma StepKeeps(n: Net, m: Move)
    requires NetSound(n)
    ensures Keeps(n, Step(n, m))
  {
    hide NetSound, MoveA, Extends;
    FlipSound(n);
    MoveKeeps(n, m);
    MoveKeeps(Flip(n), m);
  }

  lemma KeepsTrans(n: Net, n2: Net, n3: Net)
    requires Keeps(n, n2) && Keeps(n2, n3)
    ensures Keeps(n, n3)
  {
    ExtendsTrans(n.a.exports, n2.a.exports, n3.a.exports);
    ExtendsTrans(n.b.exports, n2.b.exports, n3.b.exports);
  }

  lemma PlayMore(n: Net, moves: seq<Move>, m: Move)
    ensures Play(n, moves + [m]) == Step(Play(n, moves), m)
  {
    assert (moves + [m])[..|moves|] == moves;
  }

  lemma {:induction false} PlayKeeps(s: Setup, moves: seq<Move>, more: seq<Move>)
    requires s.a != s.b
    ensures Keeps(Play(Opened(s), moves), Play(Opened(s), moves + more))
    decreases |more|
  {
    hide *;
    if more == [] {
      assert moves + more == moves;
      KeepsSame(Play(Opened(s), moves));
    } else {
      var front, last := more[..|more| - 1], more[|more| - 1];
      PlayKeeps(s, moves, front);
      assert moves + more == (moves + front) + [last];
      PlayMore(Opened(s), moves + front, last);
      PlaySound(s, moves + front);
      StepKeeps(Play(Opened(s), moves + front), last);
      KeepsTrans(Play(Opened(s), moves), Play(Opened(s), moves + front), Play(Opened(s), moves + more));
    }
  }

  /** A reference id names one value for ever: what any frame sent so far says of it is what it
      still names in every later state. */
  lemma NamesOneValue(s: Setup, moves: seq<Move>, more: seq<Move>)
    requires s.a != s.b
    ensures var n, n2 := Play(Opened(s), moves), Play(Opened(s), moves + more);
      && Extends(n.a.exports, n2.a.exports) && AllNamed(n2.a.exports, Offered(n.a.log.sent))
      && Extends(n.b.exports, n2.b.exports) && AllNamed(n2.b.exports, Offered(n.b.log.sent))
  {
    var n, n2 := Play(Opened(s), moves), Play(Opened(s), moves + more);
    PlayKeeps(s, moves, more);
    PlaySound(s, moves);
    NamedLater(n.a.exports, n2.a.exports, Offered(n.a.log.sent));
    NamedLater(n.b.exports, n2.b.exports, Offered(n.b.log.sent));
  }

  // ── Calls ───────────────────────────────────────────────────────

  /** One session, alone with whatever reaches it, honest or not. */
  datatype Event = Did(act: Act) | Heard(frame: Frame)
  datatype Solo = Solo(end: End, clock: nat, closed: bool)

  /** What happens next; a fault closes the session, and what cannot happen changes nothing. */
  function Happen(o: Solo, event: Event): Solo {
    if o.closed then o
    else match event
      case Did(act) => if Enabled(o.end, act) then Solo(Perform(o.end, act, o.clock), o.clock + 1, false) else o
      case Heard(f) =>
        if !Listening(o.end) then o
        else
          var (end, fault) := Receive(o.end, f, o.clock);
          if fault then o.(closed := true) else Solo(end, o.clock + 1, false)
  }

  function Live(o: Solo, events: seq<Event>): Solo {
    if events == [] then o else Happen(Live(o, events[..|events| - 1]), events[|events| - 1])
  }

  function Fresh(endpoint: nat, host: bool, inline: set<string>): Solo {
    Solo(Start(endpoint, host, inline), 0, false)
  }

  lemma {:induction false} LiveSound(endpoint: nat, host: bool, inline: set<string>, events: seq<Event>)
    ensures var o := Live(Fresh(endpoint, host, inline), events); Sound(o.end, o.clock)
    decreases |events|
  {
    hide Sound, Perform, Receive, Enabled, Listening;
    if events == [] {
      StartSound(endpoint, host, inline);
    } else {
      LiveSound(endpoint, host, inline, events[..|events| - 1]);
      var o, event := Live(Fresh(endpoint, host, inline), events[..|events| - 1]), events[|events| - 1];
      match event
      case Did(act) => if Enabled(o.end, act) { PerformSound(o.end, act, o.clock); }
      case Heard(f) => if Listening(o.end) && !Receive(o.end, f, o.clock).1 { ReceiveSound(o.end, f, o.clock); }
    }
  }

  /** Every call of the far end's, while the session is open, is either in progress in one place
      or answered by exactly one return or throw. No answer goes to a call that was not made. */
  lemma CallsAnsweredOnce(endpoint: nat, host: bool, inline: set<string>, events: seq<Event>, n: nat)
    ensures var e := Live(Fresh(endpoint, host, inline), events).end;
      && Total(Asked(n), e.log.got) <= 1
      && Total(Answered(n), e.log.sent) + Of(Cases(e.thread), n) == Total(Asked(n), e.log.got)
  {
    LiveSound(endpoint, host, inline, events);
    var e := Live(Fresh(endpoint, host, inline), events).end;
    assert Total(Answered(n), e.log.sent) + Of(Cases(e.thread), n) + InHand(None, n) == Total(Asked(n), e.log.got);
  }

  lemma {:induction false} LiveAdmits(endpoint: nat, host: bool, inline: set<string>, events: seq<Event>)
    ensures AllAdmitted(Live(Fresh(endpoint, host, inline), events).end.log)
    decreases |events|
  {
    hide AllAdmitted, Perform, Receive, Enabled, Listening;
    if events == [] {
      StartAdmits(endpoint, host, inline);
    } else {
      LiveAdmits(endpoint, host, inline, events[..|events| - 1]);
      var o, event := Live(Fresh(endpoint, host, inline), events[..|events| - 1]), events[|events| - 1];
      match event
      case Did(act) => if Enabled(o.end, act) { PerformAdmits(o.end, act, o.clock); }
      case Heard(f) => if Listening(o.end) && !Receive(o.end, f, o.clock).1 { ReceiveAdmits(o.end, f, o.clock); }
    }
  }

  lemma StartAdmits(endpoint: nat, host: bool, inline: set<string>)
    ensures AllAdmitted(Start(endpoint, host, inline).log)
  {}

  /** Every call received is refused, run at once or queued: in one of these ways, and once. The
      calls started are the calls queued, in their order, each once, up to those that wait:
      whichever of its microtask, a draining wait or its arrival came first. */
  lemma CallsStartOnceInOrder(endpoint: nat, host: bool, inline: set<string>, events: seq<Event>)
    ensures var e := Live(Fresh(endpoint, host, inline), events).end;
      && (forall n: nat :: Admitted(e.log, n) == Total(Asked(n), e.log.got) <= 1)
      && e.log.queued == e.log.started + Numbers(e.thread.queue)
      && (forall i, j :: 0 <= i < j < |e.log.queued| ==> e.log.queued[i] < e.log.queued[j])
  {
    LiveSound(endpoint, host, inline, events);
    LiveAdmits(endpoint, host, inline, events);
    var e := Live(Fresh(endpoint, host, inline), events).end;
    forall n: nat ensures Admitted(e.log, n) == Total(Asked(n), e.log.got) <= 1 {
      CallsAnsweredOnce(endpoint, host, inline, events, n);
    }
    hide Live, Admitted, Total;
  }

  /** `active` is the business calls not answered, and each time a business Promise was entered
      among the exports and did not settle since: rolled back, given back or not. */
  lemma ActiveCounts(endpoint: nat, host: bool, inline: set<string>, events: seq<Event>)
    ensures var e := Live(Fresh(endpoint, host, inline), events).end;
      e.exports.active == Businesses(Cases(e.thread)) + |Unfinished(e.exports)|
  {
    LiveSound(endpoint, host, inline, events);
  }

  lemma EntersPromise(x: Exports, v: Local, ctx: Context)
    requires v.kind.Future? && !(v in x.identities && x.identities[v] in x.entries) && x.ref < MAX_SAFE
    ensures Encode(x, [], [Own(v)], true, ctx).0 == Bump(Enter(x, v, ctx), x.ref + 1).0
  {
    assert [Own(v)][..0] == [];
    assert Grant(x, [], [], ctx) == Granting(x, [], [], true);
  }

  /** A Promise answered, given back and answered again has two ids, and counts twice. */
  lemma PromiseCountsTwice(v: Local, path: Path)
    requires v.kind.Future?
    ensures var ctx, none := Context(path, true, false), Exports(0, map[], map[], map[], 0, map[]);
      var first := Encode(none, [], [Own(v)], true, ctx).0;
      && 1 in first.entries && first.entries[1].grants == 1
      && var again := Encode(TakeBack(first, 1, 1), [], [Own(v)], true, ctx).0;
         again.entries.Keys == {2} && again.active == 2 && Unfinished(again) == {1, 2}
  {
    var ctx, none := Context(path, true, false), Exports(0, map[], map[], map[], 0, map[]);
    hide Encode;
    EntersPromise(none, v, ctx);
    var first := Encode(none, [], [Own(v)], true, ctx).0;
    EntersPromise(TakeBack(first, 1, 1), v, ctx);
  }

  // ── Progress ────────────────────────────────────────────────────

  /** Something of the protocol happens next at `me`: a frame is read, a queued call starts, the
      call running ends, or a wait that was answered goes on. */
  predicate Progresses(me: End, far: End) {
    if me.thread.stack == [] then InFlight(far, me) != [] || me.thread.micro != []
    else
      var top := me.thread.stack[|me.thread.stack| - 1];
      top.Running? || top.draining || top.number !in me.pending || InFlight(far, me) != []
  }

  /** Stuck: `me` waits for an answer, with nothing to read, to run or to drain. */
  lemma StuckWaits(me: End, far: End, clock: nat)
    requires Sound(me, clock) && !Progresses(me, far) && me.thread.stack != []
    ensures var top := me.thread.stack[|me.thread.stack| - 1];
      top.Waiting? && top.number in me.pending && me.thread.queue == []
  {}

  /** A queued call has its microtask to come, when nothing waits. */
  lemma QueuedHasMicro(e: End, clock: nat)
    requires Sound(e, clock) && e.thread.stack == [] && e.thread.queue != []
    ensures e.thread.queue[0].number in e.thread.micro
  {
    assert Numbers(e.thread.queue)[0] in e.thread.micro;
  }

  lemma StuckIdle(me: End, far: End, clock: nat)
    requires Sound(me, clock) && !Progresses(me, far) && me.thread.stack == []
    ensures me.thread.queue == []
  {
    if me.thread.queue != [] { QueuedHasMicro(me, clock); }
  }

  /** A synchronous call is never of a Promise. */
  lemma WaitedNotAwaiting(me: End, far: End, clock: nat, i: nat)
    requires Sound(me, clock) && Sound(far, clock) && me.log.sent == far.log.got
    requires i < |me.thread.stack| && me.thread.stack[i].Waiting?
    ensures Of(AwaitCases(far.thread.awaiting), me.thread.stack[i].number) == 0
  {
    var n := me.thread.stack[i].number;
    assert Total(Awaits(n), me.log.sent) == 0;
    if Of(AwaitCases(far.thread.awaiting), n) >= 1 { var k := AwaitingOf(far.thread.awaiting, n); }
  }

  /** A call waited for, with nothing on its way, runs on the far side's stack. */
  lemma WaitedRuns(me: End, far: End, clock: nat, i: nat)
    requires Sound(me, clock) && Sound(far, clock) && me.log.got <= far.log.sent && far.log.got <= me.log.sent
    requires InFlight(me, far) == [] && InFlight(far, me) == [] && far.thread.queue == []
    requires i < |me.thread.stack| && me.thread.stack[i].Waiting? && me.thread.stack[i].number in me.pending
    ensures var n, stack := me.thread.stack[i].number, far.thread.stack;
      exists j :: 0 <= j < |stack| && stack[j].Running? && stack[j].number == n
  {
    var n := me.thread.stack[i].number;
    assert me.log.got == far.log.sent && far.log.got == me.log.sent;
    assert (if n in me.pending then 1 else 0) + Total(Answered(n), me.log.got) == Total(Asked(n), me.log.sent);
    assert Total(Answered(n), far.log.sent) + Of(Cases(far.thread), n) + InHand(None, n) ==
      Total(Asked(n), far.log.got);
    WaitedNotAwaiting(me, far, clock, i);
    hide Sound;
    assert Of(Cases(far.thread), n) >= 1;
    CasesSplit(QueueCases(far.thread.queue) + StackCases(far.thread.stack), AwaitCases(far.thread.awaiting), n);
    CasesSplit(QueueCases(far.thread.queue), StackCases(far.thread.stack), n);
    RunningOf(far.thread.stack, n);
  }

  lemma {:induction false} AwaitingOf(awaiting: seq<Awaited>, n: nat) returns (k: nat)
    requires Of(AwaitCases(awaiting), n) >= 1
    ensures k < |awaiting| && awaiting[k].number == n
    decreases |awaiting|
  {
    var cases := AwaitCases(awaiting);
    if awaiting[|awaiting| - 1].number == n {
      k := |awaiting| - 1;
    } else {
      assert cases[..|cases| - 1] == AwaitCases(awaiting[..|awaiting| - 1]);
      k := AwaitingOf(awaiting[..|awaiting| - 1], n);
    }
  }

  lemma {:induction false} RunningOf(stack: seq<Activation>, n: nat)
    requires Of(StackCases(stack), n) >= 1
    ensures exists j :: 0 <= j < |stack| && stack[j].Running? && stack[j].number == n
    decreases |stack|
  {
    var front, last := stack[..|stack| - 1], stack[|stack| - 1];
    if !(last.Running? && last.number == n) {
      var one := if last.Running? then [Case(last.number, last.business)] else [];
      CasesSplit(StackCases(front), one, n);
      if one != [] { OneCase(one[0], n); }
      RunningOf(front, n);
      var j :| 0 <= j < |front| && front[j].Running? && front[j].number == n;
      assert stack[j].Running?;
    }
  }

  /** A wait on top of a stack is older than one on top of the far stack, when the call waited
      for runs further down there. */
  lemma CallerWaitedFirst(a: End, b: End, clock: nat, j: nat)
    requires Stamped(b.thread.stack, clock) && CausalStacks(a.thread.stack, b.thread.stack)
    requires a.thread.stack != [] && j < |b.thread.stack| && b.thread.stack[j].Running?
    requires a.thread.stack[|a.thread.stack| - 1].Waiting? && b.thread.stack[|b.thread.stack| - 1].Waiting?
    requires b.thread.stack[j].number == a.thread.stack[|a.thread.stack| - 1].number
    ensures a.thread.stack[|a.thread.stack| - 1].stamp < b.thread.stack[|b.thread.stack| - 1].stamp
  {
    assert b.thread.stack[j].stamp < b.thread.stack[|b.thread.stack| - 1].stamp;
  }

  /** Both stuck: each waits at the top for a call that runs further down on the other. */
  lemma StuckBelow(me: End, far: End, clock: nat) returns (j: nat)
    requires Sound(me, clock) && Sound(far, clock) && me.log.got <= far.log.sent && far.log.got <= me.log.sent
    requires me.thread.stack != [] && !Progresses(me, far) && !Progresses(far, me)
    ensures j < |far.thread.stack| && far.thread.stack[j].Running?
    ensures me.thread.stack[|me.thread.stack| - 1].Waiting?
    ensures far.thread.stack[j].number == me.thread.stack[|me.thread.stack| - 1].number
  {
    StuckWaits(me, far, clock);
    if far.thread.stack == [] { StuckIdle(far, me, clock); } else { StuckWaits(far, me, clock); }
    StuckSilent(me, far, clock);
    hide Sound, Progresses;
    WaitedRuns(me, far, clock, |me.thread.stack| - 1);
    j :| 0 <= j < |far.thread.stack| && far.thread.stack[j].Running? &&
      far.thread.stack[j].number == me.thread.stack[|me.thread.stack| - 1].number;
  }

  lemma StuckSilent(me: End, far: End, clock: nat)
    requires Sound(me, clock) && Sound(far, clock) && !Progresses(me, far) && !Progresses(far, me)
    ensures InFlight(me, far) == [] && InFlight(far, me) == []
  {}

  lemma SomeoneProgresses(n: Net)
    requires NetSound(n) && n.a.thread.stack != []
    ensures Progresses(n.a, n.b) || Progresses(n.b, n.a)
  {
    var a, b := n.a, n.b;
    if !Progresses(a, b) && !Progresses(b, a) {
      assert Stamped(a.thread.stack, n.clock) && Stamped(b.thread.stack, n.clock);
      hide Sound, Progresses, Paths.EndWithin, InFlight;
      var j := StuckBelow(a, b, n.clock);
      var i := StuckBelow(b, a, n.clock);
      CallerWaitedFirst(a, b, n.clock, j);
      CallerWaitedFirst(b, a, n.clock, i);
    }
  }

  /** A step of the protocol's own that side `a` can take: it reads a frame, starts a queued
      call, goes on from a wait, or ends the call running. */
  ghost predicate Due(n: Net, m: Move) {
    match m
    case Deliver(_) => CanDeliver(n)
    case Do(_, act) => (act.Answering? || act.Micro? || act.Drain? || act.Wake?) && CanDo(n, act)
  }

  ghost predicate DueOf(n: Net, m: Move) {
    Due(if (if m.Do? then m.onA else m.toA) then n else Flip(n), m)
  }

  /** Nothing runs and nothing waits before the far end greeted. */
  lemma BusyIsGreeted(e: End, clock: nat)
    requires Sound(e, clock) && (e.thread.stack != [] || e.thread.micro != [])
    ensures e.remote.Some?
  {
    hide Accounted, Balanced;
  }

  lemma NetGreeted(n: Net)
    requires NetSound(n)
    ensures !n.faulted && (n.a.thread.stack != [] || n.a.thread.micro != [] ==> n.a.remote.Some?)
  {
    hide Sound;
    if n.a.thread.stack != [] || n.a.thread.micro != [] { BusyIsGreeted(n.a, n.clock); }
  }

  lemma ProgressIsDue(n: Net, onA: bool) returns (m: Move)
    requires !n.faulted && Progresses(n.a, n.b)
    requires n.a.thread.stack != [] || n.a.thread.micro != [] ==> n.a.remote.Some?
    ensures Due(n, m) && onA == if m.Do? then m.onA else m.toA
  {
    hide InFlight;
    var e := n.a;
    if e.thread.stack == [] {
      m := if InFlight(n.b, e) != [] then Deliver(onA) else Do(onA, Micro);
    } else {
      var top := e.thread.stack[|e.thread.stack| - 1];
      m := if top.Running? then Do(onA, Answering(Failure))
           else if top.draining then Do(onA, Drain)
           else if top.number !in e.pending then Do(onA, Wake)
           else Deliver(onA);
    }
  }

  /** Synchronous calls cannot deadlock: in every state the two sides reach, if a call is on
      either stack, waiting or running, a step of the protocol's own can be taken. */
  lemma NeverDeadlocks(s: Setup, moves: seq<Move>)
    requires s.a != s.b
    requires var n := Play(Opened(s), moves); n.a.thread.stack != [] || n.b.thread.stack != []
    ensures exists m: Move :: DueOf(Play(Opened(s), moves), m)
  {
    PlaySound(s, moves);
    var n := Play(Opened(s), moves);
    FlipSound(n);
    if n.a.thread.stack != [] { SomeoneProgresses(n); } else { SomeoneProgresses(Flip(n)); }
    NetGreeted(n);
    NetGreeted(Flip(n));
    hide NetSound, Progresses, Due;
    if Progresses(n.a, n.b) {
      var m := ProgressIsDue(n, true);
      assert DueOf(n, m);
    } else {
      var m := ProgressIsDue(Flip(n), false);
      assert DueOf(n, m);
    }
  }
}
