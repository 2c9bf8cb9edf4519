/** Two sessions joined by two channels that keep the order of frames, and what holds in every
    state they can reach. */
module Network {
  import opened Options
  import opened Wire
  import opened References
  import opened Endpoint
  import opened Ledger
  import opened Account
  import opened Invariant
  import opened Steps
  import opened Paths
  import opened PathSteps
  import opened Growth

  /** The two sides; what one sent and the other has not received is on its way. `clock` counts
      the moves made. `faulted`: a side received what no honest far end sends. */
  datatype Net = Net(a: End, b: End, clock: nat, faulted: bool)

  datatype Move = Do(onA: bool, act: Act) | Deliver(toA: bool)

  function Flip(n: Net): Net {
    Net(n.b, n.a, n.clock, n.faulted)
  }

  /** What `from` sent that `to` has not received. */
  function InFlight(from: End, to: End): seq<Frame> {
    if |to.log.got| <= |from.log.sent| then from.log.sent[|to.log.got|..] else []
  }

  predicate CanDo(n: Net, act: Act) {
    !n.faulted && Enabled(n.a, act)
  }

  predicate CanDeliver(n: Net) {
    !n.faulted && Listening(n.a) && InFlight(n.b, n.a) != []
  }

  /** A move of side `a`. */
  function MoveA(n: Net, m: Move): Net {
    match m
    case Do(_, act) => if CanDo(n, act) then Net(Perform(n.a, act, n.clock), n.b, n.clock + 1, false) else n
    case Deliver(_) =>
      if !CanDeliver(n) then n
      else
        var (a, fault) := Receive(n.a, InFlight(n.b, n.a)[0], n.clock);
        Net(a, n.b, n.clock + 1, fault)
  }

  /** One move; one that cannot be made changes nothing. */
  function Step(n: Net, m: Move): Net {
    if (if m.Do? then m.onA else m.toA) then MoveA(n, m) else Flip(MoveA(Flip(n), m))
  }

  function Play(n: Net, moves: seq<Move>): Net {
    if moves == [] then n else Step(Play(n, moves[..|moves| - 1]), moves[|moves| - 1])
  }

  /** Two endpoints that greeted each other. */
  datatype Setup = Setup(a: nat, b: nat, hostA: bool, hostB: bool, inlineA: set<string>, inlineB: set<string>)

  function Opened(s: Setup): Net {
    Net(Start(s.a, s.hostA, s.inlineA), Start(s.b, s.hostB, s.inlineB), 0, false)
  }

  // ── The invariant ───────────────────────────────────────────────

  function LastCall(e: End): CallId {
    CallId(e.endpoint, e.next)
  }

  /** A call waited for on one side runs on the other only since it was made. */
  ghost predicate CausalStacks(waiting: seq<Activation>, running: seq<Activation>) {
    forall i, j ::
      (0 <= i < |waiting| && 0 <= j < |running| && waiting[i].Waiting? && running[j].Running? &&
        waiting[i].number == running[j].number)
      ==> waiting[i].stamp < running[j].stamp
  }

  ghost predicate NetSound(n: Net) {
    && !n.faulted && n.a.endpoint != n.b.endpoint
    && Sound(n.a, n.clock) && Sound(n.b, n.clock)
    && n.a.log.got <= n.b.log.sent && n.b.log.got <= n.a.log.sent
    && EndWithin(n.a, LastCall(n.b)) && EndWithin(n.b, LastCall(n.a))
    && CausalStacks(n.a.thread.stack, n.b.thread.stack) && CausalStacks(n.b.thread.stack, n.a.thread.stack)
  }

  lemma FlipSound(n: Net)
    requires NetSound(n)
    ensures NetSound(Flip(n)) && Flip(Flip(n)) == n
  {}

  // ── What one side makes of the other's frames ───────────────────

  /** The frame that arrives next at `me`, and what both logs say then. */
  ghost predicate Next(me: End, far: End, f: Frame) {
    && me.log.got < far.log.sent && f == far.log.sent[|me.log.got|]
    && far.log.got <= me.log.sent
  }

  lemma NextPrefix(me: End, far: End, f: Frame)
    requires Next(me, far, f)
    ensures me.log.got == far.log.sent[..|me.log.got|]
    ensures me.log.got + [f] <= far.log.sent
  {}

  /** What the far end still owes is still exported here, as the kind it was received as. */
  lemma OwedIsExported(me: End, far: End, f: Frame, id: nat, kind: Kind)
    requires Balanced(me.exports, me.imports, me.log.sent, me.log.got) && Next(me, far, f)
    requires Owing(me.log.got, far.log.got, id, kind)
    ensures Exported(me.exports, id, kind)
  {
    TotalPrefix(Granted(id), far.log.got, me.log.sent);
    assert GrantsOf(me.exports, id) + Total(Released(id), me.log.got) == Total(Granted(id), me.log.sent);
    OfferedPrefix(far.log.got, me.log.sent);
    var origin: Path :| Reference(id, kind, false, origin) in Offered(far.log.got);
    assert Named(me.exports, Reference(id, kind, false, origin));
  }

  /** What is held here, with what arrives, is no more than the far end counts. */
  lemma HeldIsCounted(me: End, far: End, f: Frame, id: nat)
    requires Balanced(me.exports, me.imports, me.log.sent, me.log.got)
    requires Balanced(far.exports, far.imports, far.log.sent, far.log.got)
    requires Next(me, far, f)
    ensures Held(me.imports.records, id) + Grants(Carried(f), id) <= GrantsOf(far.exports, id)
  {
    NextPrefix(me, far, f);
    TotalOne(Granted(id), me.log.got, f);
    TotalPrefix(Granted(id), me.log.got + [f], far.log.sent);
    TotalPrefix(Released(id), far.log.got, me.log.sent);
    assert Held(me.imports.records, id) + Total(Released(id), me.log.sent) == Total(Granted(id), me.log.got);
    assert GrantsOf(far.exports, id) + Total(Released(id), far.log.got) == Total(Granted(id), far.log.sent);
  }

  /** What decoding needs of the references in a frame. */
  ghost predicate Honest(x: Exports, y: Exports, refs: seq<Reference>) {
    forall r <- refs :: if r.home then 1 <= r.id <= MAX_SAFE && Exported(x, r.id, r.kind) else Named(y, r)
  }

  ghost predicate Fits(records: seq<Record>, refs: seq<Reference>) {
    forall id: nat :: Held(records, id) + Grants(refs, id) <= MAX_SAFE
  }

  lemma DecodeOneHonest(x: Exports, y: Exports, d: Decoding, r: Reference, host: bool, offers: set<Reference>)
    requires ImportsOk(d.imports) && !d.fault && NamesOk(y) && AllKnown(offers, d.imports.records)
    requires AllNamed(y, offers)
    requires Honest(x, y, [r]) && Held(d.imports.records, r.id) + (if r.home then 0 else 1) <= MAX_SAFE
    ensures !DecodeOne(x, d, r, host).fault
  {
    assert r in [r];
    var m := d.imports;
    if !r.home && !(r.kind.Plugin? && !host) && Current(m, r.id).Some? {
      var k := Current(m, r.id).value;
      assert Known(offers, m.records[k]);
      assert Named(y, Reference(m.records[k].id, m.records[k].kind, false, m.records[k].origin));
      HeldAtLeast(m.records, k);
    }
  }

  /** The references an honest far end sends are never a fault. */
  lemma {:induction false} DecodeHonest(
    x: Exports, y: Exports, m: Imports, refs: seq<Reference>, host: bool, offers: set<Reference>)
    requires ImportsOk(m) && NamesOk(y) && AllKnown(offers, m.records) && AllNamed(y, offers)
    requires Honest(x, y, refs) && (forall r <- refs :: !r.home ==> r in offers) && Fits(m.records, refs)
    ensures !Decode(x, m, refs, host).fault
    decreases |refs|
  {
    if refs != [] {
      var front, last := refs[..|refs| - 1], refs[|refs| - 1];
      forall id: nat ensures Held(m.records, id) + Grants(front, id) <= MAX_SAFE {
        assert Held(m.records, id) + Grants(refs, id) <= MAX_SAFE;
      }
      DecodeHonest(x, y, m, front, host, offers);
      DecodeEffect(x, m, front, host);
      DecodeKnown(x, m, front, host, offers);
      var d := Decode(x, m, front, host);
      assert last in refs;
      assert Held(d.imports.records, last.id) == Held(m.records, last.id) + Grants(front, last.id);
      assert Held(m.records, last.id) + Grants(refs, last.id) <= MAX_SAFE;
      DecodeOneHonest(x, y, d, last, host, offers);
    }
  }

  /** A payload that arrives is taken or refused, never a fault. */
  lemma TakeHonest(me: End, far: End, f: Frame, payload: Payload)
    requires Balanced(me.exports, me.imports, me.log.sent, me.log.got)
    requires Balanced(far.exports, far.imports, far.log.sent, far.log.got)
    requires Next(me, far, f) && payload.refs == Carried(f)
    ensures !Take(me.exports, me.imports, payload, me.host).fault
  {
    var refs, offers := Carried(f), Offered(far.log.sent);
    NextPrefix(me, far, f);
    OfferedPrefix(me.log.got + [f], far.log.sent);
    OfferedOne(me.log.got, f);
    KnownLater(Offered(me.log.got), offers, me.imports.records);
    assert FrameUses(far.log.sent[..|me.log.got|], far.log.sent[|me.log.got|], far.log.got);
    forall r <- refs
      ensures if r.home then 1 <= r.id <= MAX_SAFE && Exported(me.exports, r.id, r.kind) else Named(far.exports, r)
    {
      if r.home {
        assert Owing(me.log.got, far.log.got, r.id, r.kind);
        OwedIsExported(me, far, f, r.id, r.kind);
      } else {
        assert r in offers;
      }
    }
    forall id: nat ensures Held(me.imports.records, id) + Grants(refs, id) <= MAX_SAFE {
      HeldIsCounted(me, far, f, id);
    }
    DecodeHonest(me.exports, far.exports, me.imports, refs, me.host, offers);
  }

  /** A reply that arrives is of a call that waits for it. */
  lemma ReplyHonest(me: End, far: End, f: Frame)
    requires Accounted(me, None) && Accounted(far, None) && Next(me, far, f)
    requires f.Return? || f.Throw?
    ensures f.id.number in me.pending
  {
    var n := f.id.number;
    NextPrefix(me, far, f);
    TotalOne(Answered(n), me.log.got, f);
    TotalPrefix(Answered(n), me.log.got + [f], far.log.sent);
    TotalPrefix(Asked(n), far.log.got, me.log.sent);
    assert Total(Answered(n), far.log.sent) + Of(Cases(far.thread), n) + InHand(None, n) ==
      Total(Asked(n), far.log.got);
    assert Total(Asked(n), far.log.got) <= 1;
    assert (if n in me.pending then 1 else 0) + Total(Answered(n), me.log.got) == Total(Asked(n), me.log.sent);
  }

  /** Grants given back are grants counted. */
  lemma ReleaseHonest(me: End, far: End, f: Frame)
    requires Balanced(me.exports, me.imports, me.log.sent, me.log.got)
    requires Balanced(far.exports, far.imports, far.log.sent, far.log.got)
    requires Next(me, far, f) && f.Release?
    ensures f.count <= GrantsOf(me.exports, f.reference)
  {
    var id := f.reference;
    NextPrefix(me, far, f);
    TotalOne(Released(id), me.log.got, f);
    TotalPrefix(Released(id), me.log.got + [f], far.log.sent);
    TotalPrefix(Granted(id), far.log.got, me.log.sent);
    assert Held(far.imports.records, id) + Total(Released(id), far.log.sent) == Total(Granted(id), far.log.got);
    assert GrantsOf(me.exports, id) + Total(Released(id), me.log.got) == Total(Granted(id), me.log.sent);
  }

  /** A call that arrives has a new number, is the far end's, and is not in its own path. */
  lemma IdentityHonest(me: End, far: End, f: Frame)
    requires Accounted(me, None) && Accounted(far, None)
    requires Next(me, far, f) && f.Request? && EndWithin(far, LastCall(me))
    ensures f.id.endpoint == far.endpoint && f.id !in f.path
    ensures me.received < f.id.number <= MAX_SAFE && f.id.number <= far.next
  {
    var i := |me.log.got|;
    NextPrefix(me, far, f);
    assert far.log.sent[i] == f && f in far.log.sent;
    NumberRises(me.log.got, far.log.sent, f, far.next);
  }

  lemma NumberRises(got: seq<Frame>, sent: seq<Frame>, f: Frame, last: nat)
    requires RisingAsks(sent, last) && got < sent && f == sent[|got|] && f.Request?
    ensures LastAsked(got) < f.id.number <= MAX_SAFE && f.id.number <= last
  {
    assert sent[..|got|] == got && got + [f] <= sent;
    assert LastAsked(sent[..|got|]) < sent[|got|].id.number <= MAX_SAFE;
    TotalOne(Asked(f.id.number), got, f);
    TotalPrefix(Asked(f.id.number), got + [f], sent);
  }

  /** What it is of is exported. */
  lemma TargetHonest(me: End, far: End, f: Frame)
    requires Balanced(me.exports, me.imports, me.log.sent, me.log.got)
    requires Balanced(far.exports, far.imports, far.log.sent, far.log.got)
    requires Next(me, far, f) && f.Request? && !f.op.Invoke?
    ensures Exported(me.exports, f.op.reference, TargetKind(f.op))
  {
    var i := |me.log.got|;
    NextPrefix(me, far, f);
    assert FrameUses(far.log.sent[..i], far.log.sent[i], far.log.got);
    OwedIsExported(me, far, f, f.op.reference, TargetKind(f.op));
  }

  lemma ArgumentsHonest(me: End, far: End, f: Frame)
    requires Balanced(me.exports, me.imports, me.log.sent, me.log.got)
    requires Balanced(far.exports, far.imports, far.log.sent, far.log.got)
    requires Next(me, far, f) && f.Request?
    ensures !TakeArgs(me, f.op, f.args).fault
  {
    if !(f.op.Await? || f.op.Get?) { TakeHonest(me, far, f, f.args); }
  }

  /** Only what is checked is a fault. */
  lemma AcceptedIsTaken(me: End, f: Frame, stamp: nat)
    requires me.remote.Some? && f.Request? && Acceptable(me, f.id, f.path, f.op) && !TakeArgs(me, f.op, f.args).fault
    ensures !Receive(me, f, stamp).1
  {
    hide Schedule, TakeArgs, Acceptable, Taken, IsBusiness;
  }

  lemma SoundParts(e: End, clock: nat)
    requires Sound(e, clock)
    ensures Accounted(e, None) && Balanced(e.exports, e.imports, e.log.sent, e.log.got)
  {}

  lemma RequestHonest(me: End, far: End, f: Frame, stamp: nat)
    requires Sound(me, stamp) && Sound(far, stamp) && EndWithin(far, LastCall(me))
    requires Next(me, far, f) && f.Request? && me.remote == Some(far.endpoint)
    ensures !Receive(me, f, stamp).1 && f.id.number <= far.next
  {
    SoundParts(me, stamp);
    SoundParts(far, stamp);
    hide Sound, TakeArgs, Receive, Next, EndWithin, Exported, Balanced, Accounted;
    IdentityHonest(me, far, f);
    if !f.op.Invoke? { TargetHonest(me, far, f); }
    ArgumentsHonest(me, far, f);
    AcceptedIsTaken(me, f, stamp);
  }

  lemma ReturnHonest(me: End, far: End, f: Frame, stamp: nat)
    requires Sound(me, stamp) && Sound(far, stamp)
    requires Next(me, far, f) && (f.Return? || f.Throw?) && me.remote.Some? && far.remote == Some(me.endpoint)
    ensures !Receive(me, f, stamp).1
  {
    assert far.log.sent[|me.log.got|] == f;
    ReplyHonest(me, far, f);
    if f.Return? { TakeHonest(me, far, f, f.value); }
  }

  lemma GivenBackHonest(me: End, far: End, f: Frame, stamp: nat)
    requires Sound(me, stamp) && Sound(far, stamp)
    requires Next(me, far, f) && f.Release? && me.remote.Some?
    ensures !Receive(me, f, stamp).1
  {
    assert FrameUses(far.log.sent[..|me.log.got|], far.log.sent[|me.log.got|], far.log.got);
    ReleaseHonest(me, far, f);
  }

  /** The greeting comes first, and only once. */
  lemma HelloHonest(me: End, far: End, f: Frame)
    requires Greeted(me) && Greeted(far) && Next(me, far, f)
    ensures f.Hello? <==> me.log.got == []
    ensures f.Hello? ==> f == Hello(PROTOCOL, far.endpoint, far.host)
    ensures me.remote.Some? <==> me.log.got != []
  {
    if me.log.got != [] { assert !far.log.sent[|me.log.got|].Hello?; }
  }

  /** Both greeted by the other: each is what the other calls its far end. */
  lemma RemoteKnown(me: End, far: End, f: Frame)
    requires Accounted(far, None) && Greeted(me) && Greeted(far) && Next(me, far, f) && !f.Hello?
    requires EndWithin(me, LastCall(far)) && EndWithin(far, LastCall(me))
    ensures me.remote == Some(far.endpoint)
    ensures f.Return? || f.Throw? ==> far.remote == Some(me.endpoint)
  {
    HelloHonest(me, far, f);
    assert far.log.sent[|me.log.got|] == f;
  }

  /** No frame an honest far end sends is a fault. */
  lemma ReceiveHonest(me: End, far: End, f: Frame, stamp: nat)
    requires Sound(me, stamp) && Sound(far, stamp) && Next(me, far, f) && me.endpoint != far.endpoint
    requires EndWithin(me, LastCall(far)) && EndWithin(far, LastCall(me))
    ensures !Receive(me, f, stamp).1
    ensures f.Request? ==> f.id.number <= far.next
    ensures f.Hello? ==> f.endpoint == far.endpoint
    ensures FrameWithin(f, LastCall(me), LastCall(far))
  {
    NextWithin(me, far, f);
    HelloHonest(me, far, f);
    if !f.Hello? {
      RemoteKnown(me, far, f);
      hide EndWithin, FrameWithin;
      if f.Return? || f.Throw? { ReturnHonest(me, far, f, stamp); }
      else if f.Release? { GivenBackHonest(me, far, f, stamp); }
      else { RequestHonest(me, far, f, stamp); }
    }
  }

  lemma NextWithin(me: End, far: End, f: Frame)
    requires Next(me, far, f) && EndWithin(far, LastCall(me))
    ensures FrameWithin(f, LastCall(me), LastCall(far))
  {
    assert f in far.log.sent;
    FrameSwap(f, LastCall(far), LastCall(me));
  }

  lemma FrameSwap(f: Frame, one: CallId, other: CallId)
    requires FrameWithin(f, one, other)
    ensures FrameWithin(f, other, one)
  {
    forall r <- Carried(f) ensures Within(r.origin, other, one) { assert Within(r.origin, one, other); }
  }

  // ── Every move keeps the invariant ──────────────────────────────

  /** A call running here was made by the far end. */
  lemma RunningWasMade(me: End, far: End, clock: nat, j: nat)
    requires Sound(me, clock) && Sound(far, clock) && me.log.got <= far.log.sent
    requires j < |me.thread.stack| && me.thread.stack[j].Running?
    ensures me.thread.stack[j].number <= far.next
  {
    var n := me.thread.stack[j].number;
    RunningIsCase(me.thread.stack, j);
    CasesSplit(QueueCases(me.thread.queue) + StackCases(me.thread.stack), AwaitCases(me.thread.awaiting), n);
    CasesSplit(QueueCases(me.thread.queue), StackCases(me.thread.stack), n);
    assert Total(Answered(n), me.log.sent) + Of(Cases(me.thread), n) + InHand(None, n) == Total(Asked(n), me.log.got);
    TotalPrefix(Asked(n), me.log.got, far.log.sent);
  }

  lemma {:induction false} RunningIsCase(stack: seq<Activation>, j: nat)
    requires j < |stack| && stack[j].Running?
    ensures Of(StackCases(stack), stack[j].number) >= 1
    decreases |stack|
  {
    var n, last := stack[j].number, stack[|stack| - 1];
    var one := if last.Running? then [Case(last.number, last.business)] else [];
    CasesSplit(StackCases(stack[..|stack| - 1]), one, n);
    if j < |stack| - 1 { RunningIsCase(stack[..|stack| - 1], j); } else { OneCase(one[0], n); }
  }

  /** What side `a` puts on its stack keeps the causal order of both. */
  lemma CausalKept(a: End, a2: End, b: End, clock: nat)
    requires Sound(a, clock) && Sound(b, clock) && b.log.got <= a.log.sent
    requires CausalStacks(a.thread.stack, b.thread.stack) && CausalStacks(b.thread.stack, a.thread.stack)
    requires Came(a.thread.stack, a2.thread.stack, clock, a.next)
    ensures CausalStacks(a2.thread.stack, b.thread.stack) && CausalStacks(b.thread.stack, a2.thread.stack)
  {
    var before, after, other := a.thread.stack, a2.thread.stack, b.thread.stack;
    forall i, j | 0 <= i < |after| && 0 <= j < |other| && after[i].Waiting? && other[j].Running? &&
      after[i].number == other[j].number
      ensures after[i].stamp < other[j].stamp
    {
      RunningWasMade(b, a, clock, j);
      assert Old(before, after[i]) || New(after[i], clock, a.next);
      var k :| 0 <= k < |before| && Same(before[k], after[i]);
    }
    forall i, j | 0 <= i < |other| && 0 <= j < |after| && other[i].Waiting? && after[j].Running? &&
      other[i].number == after[j].number
      ensures other[i].stamp < after[j].stamp
    {
      assert Old(before, after[j]) || New(after[j], clock, a.next);
      if Old(before, after[j]) {
        var k :| 0 <= k < |before| && Same(before[k], after[j]);
        assert other[i].stamp < before[k].stamp;
      }
    }
  }

  /** What a sound and grown side `a` gives: the invariant of both. */
  lemma MovedSound(n: Net, a2: End)
    requires NetSound(n) && Sound(a2, n.clock + 1) && Grown(n.a, a2, n.clock)
    requires a2.log.got <= n.b.log.sent && EndWithin(a2, LastCall(n.b))
    ensures NetSound(Net(a2, n.b, n.clock + 1, false))
  {
    hide Sound, EndWithin, Extends, Came, CausalStacks;
    SoundLater(n.b, n.clock);
    CausalKept(n.a, a2, n.b, n.clock);
    EndWithinLater(n.b, LastCall(n.a), LastCall(a2));
  }

  lemma DoSound(n: Net, act: Act)
    requires NetSound(n) && CanDo(n, act)
    ensures NetSound(Net(Perform(n.a, act, n.clock), n.b, n.clock + 1, false))
  {
    PerformSound(n.a, act, n.clock);
    PerformWithin(n.a, act, n.clock, LastCall(n.b));
    PerformGrows(n.a, act, n.clock);
    MovedSound(n, Perform(n.a, act, n.clock));
  }

  lemma InFlightNext(n: Net)
    requires NetSound(n) && InFlight(n.b, n.a) != []
    ensures Next(n.a, n.b, InFlight(n.b, n.a)[0])
  {}

  lemma SoundTables(e: End, clock: nat)
    requires Sound(e, clock)
    ensures ExportsOk(e.exports) && ImportsOk(e.imports)
  {}

  /** A frame an honest far end sends is taken, and keeps this side's invariant. */
  lemma ReceivedSound(me: End, far: End, f: Frame, clock: nat)
    requires Sound(me, clock) && Sound(far, clock) && Next(me, far, f) && me.endpoint != far.endpoint && Listening(me)
    requires EndWithin(me, LastCall(far)) && EndWithin(far, LastCall(me))
    ensures !Receive(me, f, clock).1
    ensures var d := Receive(me, f, clock).0;
      Sound(d, clock + 1) && EndWithin(d, LastCall(far)) && Grown(me, d, clock) && d.log.got == me.log.got + [f]
  {
    ReceiveHonest(me, far, f, clock);
    SoundTables(me, clock);
    hide *;
    ReceiveSound(me, f, clock);
    LastNumber(f, far);
    ReceiveWithin(me, f, clock, LastCall(far));
    ReceiveGrows(me, f, clock);
  }

  lemma LastNumber(f: Frame, far: End)
    ensures LastCall(far).endpoint == far.endpoint && LastCall(far).number == far.next
  {}

  /** What a delivery to side `a` starts from. */
  lemma DeliveryOf(n: Net)
    requires NetSound(n) && CanDeliver(n)
    ensures InFlight(n.b, n.a) != []
    ensures var f := InFlight(n.b, n.a)[0]; Next(n.a, n.b, f) && n.a.log.got + [f] <= n.b.log.sent
    ensures Sound(n.a, n.clock) && Sound(n.b, n.clock) && n.a.endpoint != n.b.endpoint && Listening(n.a)
    ensures EndWithin(n.a, LastCall(n.b)) && EndWithin(n.b, LastCall(n.a))
  {
    InFlightNext(n);
    NextPrefix(n.a, n.b, InFlight(n.b, n.a)[0]);
  }

  lemma DeliverSound(n: Net)
    requires NetSound(n) && CanDeliver(n)
    ensures var (a, fault) := Receive(n.a, InFlight(n.b, n.a)[0], n.clock);
      !fault && NetSound(Net(a, n.b, n.clock + 1, false))
  {
    hide *;
    DeliveryOf(n);
    var f := InFlight(n.b, n.a)[0];
    ReceivedSound(n.a, n.b, f, n.clock);
    MovedSound(n, Receive(n.a, f, n.clock).0);
  }

  lemma MoveASound(n: Net, m: Move)
    requires NetSound(n)
    ensures NetSound(MoveA(n, m))
  {
    hide NetSound, Perform, Receive, Enabled, Listening, InFlight;
    match m
    case Do(_, act) => if CanDo(n, act) { DoSound(n, act); }
    case Deliver(_) => if CanDeliver(n) { DeliverSound(n); }
  }

  lemma StepSound(n: Net, m: Move)
    requires NetSound(n)
    ensures NetSound(Step(n, m))
  {
    MoveASound(n, m);
    FlipSound(n);
    MoveASound(Flip(n), m);
    FlipSound(MoveA(Flip(n), m));
  }

  lemma OpenedSound(s: Setup)
    requires s.a != s.b
    ensures NetSound(Opened(s))
  {
    StartSound(s.a, s.hostA, s.inlineA);
    StartSound(s.b, s.hostB, s.inlineB);
    StartWithin(s.a, s.hostA, s.inlineA, s.b);
    StartWithin(s.b, s.hostB, s.inlineB, s.a);
    hide Sound, EndWithin;
  }

  lemma StartWithin(endpoint: nat, host: bool, inline: set<string>, far: nat)
    ensures EndWithin(Start(endpoint, host, inline), CallId(far, 0))
  {}

  /** Whatever the two sides do, in whatever order frames arrive: the invariant holds. */
  lemma {:induction false} PlaySound(s: Setup, moves: seq<Move>)
    requires s.a != s.b
    ensures NetSound(Play(Opened(s), moves))
    decreases |moves|
  {
    if moves == [] {
      OpenedSound(s);
    } else {
      PlaySound(s, moves[..|moves| - 1]);
      StepSound(Play(Opened(s), moves[..|moves| - 1]), moves[|moves| - 1]);
    }
  }
}
