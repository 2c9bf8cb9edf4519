/** A synchronous call holds the event loop, and with it every Promise of its side: no `await` made
    inside such a call is ever left waiting for one. */
module SelfWaits {
  import opened Wire
  import opened References
  import opened Endpoint
  import opened Invariant
  import opened Paths
  import opened PathSteps
  import opened Growth
  import opened Network

  /** No `await` registered belongs to a synchronous call of this side that waits. */
  ghost predicate NoneInside(e: End) {
    forall a <- e.thread.awaiting :: !Related(e, a.path)
  }

  /** An `await` newly registered in `d` belonged to no waiting call, and no call was made. */
  ghost predicate Registers(e: End, d: End) {
    forall a <- d.thread.awaiting :: a in e.thread.awaiting || (!Related(e, a.path) && d.next == e.next)
  }

  lemma RespondRegisters(e: End, n: nat, path: Path, business: bool, answer: Answer)
    requires e.remote.Some?
    ensures var d := Respond(e, n, path, business, answer); d.thread == e.thread && d.next == e.next
  {
    hide Encode;
  }

  lemma OwnCall(e: End, path: Path, number: nat)
    requires e.remote.Some? && e.remote.value != e.endpoint
    ensures Related(e, path + [CallId(e.remote.value, number)]) <==> Related(e, path)
  {}

  lemma ExecuteRegisters(e: End, job: Job, stamp: nat)
    requires e.remote.Some? && e.remote.value != e.endpoint
    ensures Registers(e, Execute(e, job, stamp))
  {
    hide Respond;
    var path := job.path + [CallId(e.remote.value, job.number)];
    var entered := e.(thread := e.thread.(contexts := e.thread.contexts + {path}));
    OwnCall(e, job.path, job.number);
    if job.op.Await? && job.op.reference in e.exports.futures && e.exports.futures[job.op.reference].Settled? {
      RespondRegisters(entered, job.number, path, job.business, e.exports.futures[job.op.reference].answer);
    } else {
      RespondRegisters(entered, job.number, path, job.business, Failure);
    }
    hide Related;
  }

  lemma RunRegisters(e: End, number: nat, stamp: nat)
    requires e.remote.Some? && e.remote.value != e.endpoint
    ensures Registers(e, Run(e, number, stamp))
  {
    hide Execute;
    var i := Find(e.thread.queue, number);
    if i < |e.thread.queue| {
      var d := e.(thread := e.thread.(queue := e.thread.queue[..i] + e.thread.queue[i + 1..]),
        log := e.log.(started := e.log.started + [number]));
      ExecuteRegisters(d, e.thread.queue[i], stamp);
    }
  }

  lemma ScheduleRegisters(e: End, job: Job, stamp: nat)
    requires e.remote.Some? && e.remote.value != e.endpoint
    ensures Registers(e, Schedule(e, job, stamp))
  {
    hide Execute, Run;
    ExecuteRegisters(Inlined(e, job.number), job, stamp);
    RunRegisters(Enqueue(e, job), job.number, stamp);
  }

  lemma AcceptRegisters(e: End, f: Frame, stamp: nat)
    requires f.Request? && e.remote.Some? && e.remote.value != e.endpoint
    ensures Registers(e, Accept(e, f, f.id, f.path, f.op, f.args, stamp).0)
  {
    hide Schedule, TakeArgs, Acceptable;
    var business := IsBusiness(e.exports, f.op);
    ScheduleRegisters(Begin(Taken(e, f, f.id.number, TakeArgs(e, f.op, f.args)), business),
      Job(f.id.number, f.path, f.op, business), stamp);
  }

  lemma ReceiveRegisters(e: End, f: Frame, stamp: nat)
    requires e.remote.Some? ==> e.remote.value != e.endpoint
    ensures Registers(e, Receive(e, f, stamp).0)
  {
    hide Accept, Take;
    if f.Request? && e.remote.Some? { AcceptRegisters(e, f, stamp); }
  }

  lemma AskRegisters(
    e: End, want: Wanted, items: seq<Item>, encodes: bool, sound: bool, sync: bool, path: Path, stamp: nat)
    ensures AskFor(e, want, items, encodes, sound, sync, path, stamp).thread.awaiting == e.thread.awaiting
  {
    hide Prepare, OperationOf, RequestOf;
  }

  lemma PerformRegisters(e: End, act: Act, stamp: nat)
    requires Enabled(e, act) && (e.remote.Some? ==> e.remote.value != e.endpoint)
    ensures Registers(e, Perform(e, act, stamp))
  {
    hide AskFor, Run, Respond, GiveBack;
    match act
    case Ask(want, items, encodes, sound, sync, path) => AskRegisters(e, want, items, encodes, sound, sync, path,
      stamp);
    case Answering(answer) =>
      RespondRegisters(Pop(e), Top(e).value.number, Top(e).value.path, Top(e).value.business, answer);
    case Micro => RunRegisters(e.(thread := e.thread.(micro := e.thread.micro[1..])), e.thread.micro[0], stamp);
    case Drain => if e.thread.queue != [] { RunRegisters(e, e.thread.queue[0].number, stamp); }
    case Report(i) =>
      var a := e.thread.awaiting[i];
      RespondRegisters(e.(thread := e.thread.(awaiting := e.thread.awaiting[..i] + e.thread.awaiting[i + 1..])),
                       a.number, a.path, a.business, e.exports.futures[a.future].answer);
    case Wake =>
    case Settle(id, answer) =>
    case Collect(k) =>
    case Free(k) =>
  }

  /** A wait on the stack now was there before, or is for a call no path knows yet. */
  lemma StillOutside(e: End, d: End, a: Awaited, stamp: nat, far: CallId)
    requires NoneInside(e) && EndWithin(e, far) && EndWithin(d, far) && e.endpoint != far.endpoint
    requires Grown(e, d, stamp) && Registers(e, d) && a in d.thread.awaiting
    ensures !Related(d, a.path)
  {
    forall i | 0 <= i < |d.thread.stack| && d.thread.stack[i].Waiting?
      ensures CallId(d.endpoint, d.thread.stack[i].number) !in a.path
    {
      var entry := d.thread.stack[i];
      assert Old(e.thread.stack, entry) || New(entry, stamp, e.next);
      if Old(e.thread.stack, entry) {
        var k :| 0 <= k < |e.thread.stack| && Same(e.thread.stack[k], entry);
        assert !Related(e, a.path);
        assert e.thread.stack[k].Waiting?;
      } else {
        assert Within(a.path, CallId(e.endpoint, e.next), far);
        assert !Made(CallId(d.endpoint, entry.number), CallId(e.endpoint, e.next), far);
      }
    }
  }

  lemma StaysOutside(e: End, d: End, stamp: nat, far: CallId)
    requires NoneInside(e) && EndWithin(e, far) && EndWithin(d, far) && e.endpoint != far.endpoint
    requires Grown(e, d, stamp) && Registers(e, d)
    ensures NoneInside(d)
  {
    hide *;
    forall a <- d.thread.awaiting ensures !Related(d, a.path) { StillOutside(e, d, a, stamp, far); }
    AllOutside(d);
  }

  lemma AllOutside(e: End)
    requires forall a <- e.thread.awaiting :: !Related(e, a.path)
    ensures NoneInside(e)
  {}

  lemma SideParts(n: Net)
    requires NetSound(n)
    ensures Sound(n.a, n.clock) && EndWithin(n.a, LastCall(n.b)) && n.a.endpoint != LastCall(n.b).endpoint
    ensures n.a.remote.Some? ==> n.a.remote.value != n.a.endpoint
  {
    hide Sound;
  }

  lemma DoneOutside(n: Net, act: Act)
    requires NetSound(n) && NoneInside(n.a) && CanDo(n, act)
    ensures NoneInside(Perform(n.a, act, n.clock))
  {
    SideParts(n);
    SoundTables(n.a, n.clock);
    assert Enabled(n.a, act);
    hide *;
    PerformWithin(n.a, act, n.clock, LastCall(n.b));
    PerformGrows(n.a, act, n.clock);
    PerformRegisters(n.a, act, n.clock);
    StaysOutside(n.a, Perform(n.a, act, n.clock), n.clock, LastCall(n.b));
  }

  lemma DeliveredOutside(n: Net)
    requires NetSound(n) && NoneInside(n.a) && CanDeliver(n)
    ensures InFlight(n.b, n.a) != [] && NoneInside(Receive(n.a, InFlight(n.b, n.a)[0], n.clock).0)
  {
    hide *;
    SideParts(n);
    DeliveryOf(n);
    var f := InFlight(n.b, n.a)[0];
    ReceivedSound(n.a, n.b, f, n.clock);
    ReceiveRegisters(n.a, f, n.clock);
    StaysOutside(n.a, Receive(n.a, f, n.clock).0, n.clock, LastCall(n.b));
  }

  lemma MoveOutside(n: Net, m: Move)
    requires NetSound(n) && NoneInside(n.a)
    ensures NoneInside(MoveA(n, m).a) && MoveA(n, m).b == n.b
  {
    hide NetSound, NoneInside, Perform, Receive, Enabled, Listening, InFlight;
    match m
    case Do(_, act) => if CanDo(n, act) { DoneOutside(n, act); }
    case Deliver(_) => if CanDeliver(n) { DeliveredOutside(n); }
  }

  lemma {:induction false} PlayOutside(s: Setup, moves: seq<Move>)
    requires s.a != s.b
    ensures var n := Play(Opened(s), moves); NoneInside(n.a) && NoneInside(n.b)
    decreases |moves|
  {
    if moves != [] {
      var n := Play(Opened(s), moves[..|moves| - 1]);
      PlayOutside(s, moves[..|moves| - 1]);
      PlaySound(s, moves[..|moves| - 1]);
      FlipSound(n);
      hide NetSound, NoneInside, MoveA;
      MoveOutside(n, moves[|moves| - 1]);
      MoveOutside(Flip(n), moves[|moves| - 1]);
    }
  }

  /** Over every run of two sessions: a synchronous call that waits on a side is in the path of no
      `await` registered on that side's Promises, which cannot settle before the call is answered. */
  lemma NeverAwaitsItself(s: Setup, moves: seq<Move>)
    requires s.a != s.b
    ensures var n := Play(Opened(s), moves);
      && (forall a <- n.a.thread.awaiting, w <- n.a.thread.stack :: w.Waiting? ==>
         CallId(n.a.endpoint, w.number) !in a.path)
      && (forall a <- n.b.thread.awaiting, w <- n.b.thread.stack :: w.Waiting? ==>
         CallId(n.b.endpoint, w.number) !in a.path)
  {
    PlayOutside(s, moves);
    var n := Play(Opened(s), moves);
    forall a <- n.a.thread.awaiting, w <- n.a.thread.stack | w.Waiting?
      ensures CallId(n.a.endpoint, w.number) !in a.path
    {
      assert !Related(n.a, a.path);
    }
    forall a <- n.b.thread.awaiting, w <- n.b.thread.stack | w.Waiting?
      ensures CallId(n.b.endpoint, w.number) !in a.path
    {
      assert !Related(n.b, a.path);
    }
  }
}
