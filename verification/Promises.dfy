/** What becomes of Promises: when one has settled, to what, and which awaits are kept for it. */
module Promises {
  import opened Wire
  import opened References
  import opened Endpoint
  import opened Invariant
  import opened Protocol
  import opened Replies
  import Conduct
  import Network

  /** The same Promises have settled, to the same. */
  ghost predicate SameSettled(x: Exports, y: Exports) {
    forall id: nat :: HasSettled(y, id) == HasSettled(x, id) && (HasSettled(x, id) ==> y.futures[id] == x.futures[id])
  }

  lemma SameSettledTrans(x: Exports, y: Exports, z: Exports)
    requires SameSettled(x, y) && SameSettled(y, z)
    ensures SameSettled(x, z)
  {
    forall id: nat
      ensures HasSettled(z, id) == HasSettled(x, id) && (HasSettled(x, id) ==> z.futures[id] == x.futures[id])
    {
      assert HasSettled(y, id) == HasSettled(x, id) && HasSettled(z, id) == HasSettled(y, id);
    }
  }

  lemma GrantOneSettled(x: Exports, records: seq<Record>, item: Item, ctx: Context)
    requires ExportsOk(x)
    ensures SameSettled(x, GrantOne(x, records, item, ctx).0)
  {
    assert x.ref + 1 !in x.futures;
  }

  lemma {:induction false} GrantSettled(x: Exports, records: seq<Record>, items: seq<Item>, ctx: Context)
    requires ExportsOk(x)
    ensures SameSettled(x, Grant(x, records, items, ctx).exports)
    decreases |items|
  {
    if items != [] {
      var front, last := items[..|items| - 1], items[|items| - 1];
      GrantSettled(x, records, front, ctx);
      GrantEffect(x, records, front, ctx);
      var g := Grant(x, records, front, ctx);
      hide GrantOne, ExportsOk, SameSettled;
      GrantOneSettled(g.exports, records, last, ctx);
      SameSettledTrans(x, g.exports, GrantOne(g.exports, records, last, ctx).0);
    }
  }

  lemma {:induction false} RollbackFutures(x: Exports, ids: seq<nat>)
    ensures Rollback(x, ids).futures == x.futures
    decreases |ids|
  {
    if ids != [] { RollbackFutures(x, ids[..|ids| - 1]); }
  }

  lemma EncodeSettled(x: Exports, records: seq<Record>, items: seq<Item>, encodes: bool, ctx: Context)
    requires ExportsOk(x)
    ensures SameSettled(x, Encode(x, records, items, encodes, ctx).0)
  {
    GrantSettled(x, records, items, ctx);
    RollbackFutures(Grant(x, records, items, ctx).exports, Grant(x, records, items, ctx).ids);
    hide Grant, Rollback, ExportsOk;
  }

  // ── One step ────────────────────────────────────────────────────

  /** An await is kept for a Promise that has not settled, outside of all this side's waiting calls. */
  ghost predicate IsOpen(e: End, w: Awaited) {
    w.path != [] && !HasSettled(e.exports, w.future) && !Inside(e, w.path[..|w.path| - 1])
  }

  /** Nothing settles, and an await kept anew is open. */
  ghost predicate Waits(e: End, d: End) {
    && SameSettled(e.exports, d.exports)
    && forall w <- d.thread.awaiting :: w in e.thread.awaiting || IsOpen(e, w)
  }

  lemma RespondWaits(e: End, n: nat, path: Path, business: bool, answer: Answer)
    requires e.remote.Some? && ExportsOk(e.exports)
    ensures var d := Respond(e, n, path, business, answer);
      SameSettled(e.exports, d.exports) && d.thread == e.thread
  {
    if answer.Value? {
      var ctx := Context(path, business, e.plugins);
      EncodeSettled(e.exports, e.imports.records, answer.items, answer.encodes, ctx);
      hide Encode, ExportsOk;
    }
  }

  lemma ExecuteWaits(e: End, job: Job, stamp: nat)
    requires e.remote.Some? && ExportsOk(e.exports)
    ensures Waits(e, Execute(e, job, stamp))
  {
    var path := job.path + [CallId(e.remote.value, job.number)];
    var entered := e.(thread := e.thread.(contexts := e.thread.contexts + {path}));
    assert Related(e, job.path) <==> Inside(e, job.path);
    assert path[..|path| - 1] == job.path;
    if job.op.Await? {
      hide Respond, Related, ExportsOk;
      if HasSettled(e.exports, job.op.reference) {
        RespondWaits(entered, job.number, path, job.business, e.exports.futures[job.op.reference].answer);
      } else if Inside(e, job.path) {
        RespondWaits(entered, job.number, path, job.business, Failure);
      }
    }
  }

  /** Only what these say differs. */
  lemma WaitsOf(e: End, e2: End, d: End)
    requires Waits(e2, d) && SameSettled(e.exports, e2.exports) && e2.thread.awaiting == e.thread.awaiting
    requires e2.thread.stack == e.thread.stack && e2.endpoint == e.endpoint
    ensures Waits(e, d)
  {
    SameSettledTrans(e.exports, e2.exports, d.exports);
    forall w <- d.thread.awaiting ensures w in e.thread.awaiting || IsOpen(e, w) {
      assert w in e2.thread.awaiting || IsOpen(e2, w);
      assert HasSettled(e2.exports, w.future) == HasSettled(e.exports, w.future);
    }
  }

  lemma SameWaits(e: End)
    ensures Waits(e, e) && SameSettled(e.exports, e.exports)
  {}

  lemma RunWaits(e: End, number: nat, stamp: nat)
    requires e.remote.Some? && ExportsOk(e.exports)
    ensures Waits(e, Run(e, number, stamp))
  {
    hide Find, Execute, Waits, ExportsOk, SameSettled;
    var i := Find(e.thread.queue, number);
    SameWaits(e);
    if i < |e.thread.queue| {
      var picked := e.(thread := e.thread.(queue := e.thread.queue[..i] + e.thread.queue[i + 1..]),
                       log := e.log.(started := e.log.started + [number]));
      ExecuteWaits(picked, e.thread.queue[i], stamp);
      WaitsOf(e, picked, Run(e, number, stamp));
    }
  }

  lemma ScheduleWaits(e: End, job: Job, stamp: nat)
    requires e.remote.Some? && ExportsOk(e.exports)
    ensures Waits(e, Schedule(e, job, stamp))
  {
    hide Execute, Run, ExportsOk;
    if job.op.Invoke? && job.op.target == "" && job.op.name in e.inline {
      ExecuteWaits(Inlined(e, job.number), job, stamp);
      WaitsOf(e, Inlined(e, job.number), Schedule(e, job, stamp));
    } else if IsWaiting(e.thread.stack) {
      RunWaits(Enqueue(e, job), job.number, stamp);
      WaitsOf(e, Enqueue(e, job), Schedule(e, job, stamp));
    }
  }

  lemma AcceptWaits(e: End, f: Frame, stamp: nat)
    requires ExportsOk(e.exports) && e.remote.Some? && f.Request?
    ensures Waits(e, Accept(e, f, f.id, f.path, f.op, f.args, stamp).0)
  {
    var k := TakeArgs(e, f.op, f.args);
    if Acceptable(e, f.id, f.path, f.op) && !k.fault && !k.refused {
      var business := IsBusiness(e.exports, f.op);
      var begun := Begin(Taken(e, f, f.id.number, k), business);
      assert ExportsOk(begun.exports) && SameSettled(e.exports, begun.exports);
      hide Schedule, TakeArgs, Acceptable, ExportsOk, IsBusiness;
      ScheduleWaits(begun, Job(f.id.number, f.path, f.op, business), stamp);
      WaitsOf(e, begun, Schedule(begun, Job(f.id.number, f.path, f.op, business), stamp));
    }
  }

  lemma ReceiveWaits(e: End, f: Frame, stamp: nat)
    requires ExportsOk(e.exports)
    ensures Waits(e, Receive(e, f, stamp).0)
  {
    if f.Request? && e.remote.Some? {
      hide Accept, ExportsOk;
      AcceptWaits(e, f, stamp);
    } else {
      hide Take;
    }
  }

  lemma AskWaits(
    e: End, want: Wanted, items: seq<Item>, encodes: bool, sound: bool, sync: bool, path: Path, stamp: nat)
    requires ExportsOk(e.exports)
    ensures Waits(e, AskFor(e, want, items, encodes, sound, sync, path, stamp))
  {
    EncodeSettled(e.exports, e.imports.records, items, encodes, Context(path, true, e.plugins));
    hide Encode, OperationOf, RequestOf, ExportsOk;
  }

  /** The one settling, if the act is one. */
  ghost predicate SettledBy(x: Exports, y: Exports, future: nat, answer: Answer) {
    && !HasSettled(x, future) && future in y.futures && y.futures[future] == Settled(answer)
    && forall id: nat :: id != future ==>
      HasSettled(y, id) == HasSettled(x, id) && (HasSettled(x, id) ==> y.futures[id] == x.futures[id])
  }

  lemma PerformWaits(e: End, act: Act, stamp: nat)
    requires ExportsOk(e.exports) && Enabled(e, act)
    ensures act.Settle? ==> SettledBy(e.exports, Perform(e, act, stamp).exports, act.future, act.answer)
    ensures !act.Settle? ==> Waits(e, Perform(e, act, stamp))
    ensures act.Settle? ==> Perform(e, act, stamp).thread == e.thread
  {
    hide AskFor, Respond, Run, ExportsOk;
    match act
    case Ask(want, items, encodes, sound, sync, path) => AskWaits(e, want, items, encodes, sound, sync, path, stamp);
    case Answering(answer) =>
      RespondWaits(Pop(e), Top(e).value.number, Top(e).value.path, Top(e).value.business, answer);
    case Micro =>
      var next := e.(thread := e.thread.(micro := e.thread.micro[1..]));
      RunWaits(next, e.thread.micro[0], stamp);
      WaitsOf(e, next, Run(next, e.thread.micro[0], stamp));
    case Drain => if e.thread.queue != [] { RunWaits(e, e.thread.queue[0].number, stamp); }
    case Report(i) =>
      var w := e.thread.awaiting[i];
      RespondWaits(e.(thread := e.thread.(awaiting := e.thread.awaiting[..i] + e.thread.awaiting[i + 1..])),
                   w.number, w.path, w.business, e.exports.futures[w.future].answer);
    case Wake =>
    case Settle(_, _) =>
    case Collect(_) =>
    case Free(_) =>
  }

  // ── Over a run ──────────────────────────────────────────────────

  /** At the event `i` the Promise settles: while nothing runs or waits, and for the first time. */
  ghost predicate SettlesAt(start: Solo, events: seq<Event>, i: nat, future: nat, answer: Answer) {
    && i < |events| && events[i] == Did(Settle(future, answer))
    && var o := Live(start, events[..i]);
       !o.closed && o.end.thread.stack == [] && future in o.end.exports.futures && !HasSettled(o.end.exports, future)
  }

  /** Whether this event settles it. */
  ghost predicate Settles(o: Solo, event: Event, future: nat, answer: Answer) {
    && event == Did(Settle(future, answer))
    && !o.closed && o.end.thread.stack == [] && future in o.end.exports.futures && !HasSettled(o.end.exports, future)
  }

  predicate CameTo(x: Exports, future: nat, answer: Answer) {
    future in x.futures && x.futures[future] == Settled(answer)
  }

  lemma HappenSettles(o: Solo, event: Event, future: nat, answer: Answer)
    requires ExportsOk(o.end.exports)
    ensures CameTo(Happen(o, event).end.exports, future, answer) <==>
      CameTo(o.end.exports, future, answer) || Settles(o, event, future, answer)
  {
    hide ExportsOk;
    if !o.closed {
      match event
      case Did(act) =>
        if Enabled(o.end, act) {
          PerformWaits(o.end, act, o.clock);
          hide Perform;
          assert HasSettled(o.end.exports, future) || !CameTo(o.end.exports, future, answer);
        }
      case Heard(f) =>
        if Listening(o.end) {
          ReceiveWaits(o.end, f, o.clock);
          hide Receive;
          assert HasSettled(o.end.exports, future) || !CameTo(o.end.exports, future, answer);
        }
    }
  }

  lemma SettlesEarlier(start: Solo, events: seq<Event>, i: nat, future: nat, answer: Answer)
    requires events != [] && i < |events| - 1
    ensures SettlesAt(start, events, i, future, answer) <==>
      SettlesAt(start, events[..|events| - 1], i, future, answer)
  {
    hide Live;
    assert events[..i] == events[..|events| - 1][..i];
  }

  lemma SettlesLast(start: Solo, events: seq<Event>, future: nat, answer: Answer)
    requires events != []
    ensures SettlesAt(start, events, |events| - 1, future, answer) <==>
      Settles(Live(start, events[..|events| - 1]), events[|events| - 1], future, answer)
  {
    hide Live;
  }

  /** Over every run, a Promise of this side's has settled exactly when it was settled once, to that. */
  lemma {:induction false} SettledExactly(
    endpoint: nat, host: bool, inline: set<string>, events: seq<Event>, future: nat, answer: Answer)
    ensures var start := Fresh(endpoint, host, inline);
      CameTo(Live(start, events).end.exports, future, answer) <==>
        exists i: nat :: SettlesAt(start, events, i, future, answer)
    decreases |events|
  {
    var start := Fresh(endpoint, host, inline);
    if events == [] {
      NothingSettled(endpoint, host, inline, future, answer);
    } else {
      hide *;
      var front, event := events[..|events| - 1], events[|events| - 1];
      LiveSound(endpoint, host, inline, front);
      Network.SoundTables(Live(start, front).end, Live(start, front).clock);
      SettledExactly(endpoint, host, inline, front, future, answer);
      HappenSettles(Live(start, front), event, future, answer);
      Conduct.LiveMore(start, events);
      SettlesLast(start, events, future, answer);
      SettlesMore(start, events, front, future, answer);
    }
  }

  lemma SettlesMore(start: Solo, events: seq<Event>, front: seq<Event>, future: nat, answer: Answer)
    requires events != [] && front == events[..|events| - 1]
    ensures (exists i: nat :: SettlesAt(start, events, i, future, answer)) <==>
      SettlesAt(start, events, |events| - 1, future, answer) ||
      exists i: nat :: SettlesAt(start, front, i, future, answer)
  {
    hide *;
    SettlesWithin(start, events, future, answer);
    SettlesWithin(start, front, future, answer);
    forall i: nat | i < |front|
      ensures SettlesAt(start, events, i, future, answer) <==> SettlesAt(start, front, i, future, answer)
    {
      SettlesEarlier(start, events, i, future, answer);
    }
  }

  lemma SettlesWithin(start: Solo, events: seq<Event>, future: nat, answer: Answer)
    ensures forall i: nat :: SettlesAt(start, events, i, future, answer) ==> i < |events|
  {
    hide Live;
  }

  lemma NothingSettled(endpoint: nat, host: bool, inline: set<string>, future: nat, answer: Answer)
    ensures var start := Fresh(endpoint, host, inline);
      !CameTo(Live(start, []).end.exports, future, answer) && forall i: nat :: !SettlesAt(start, [], i, future, answer)
  {}

  /** Over every run, an await kept at an event is of a Promise that had not settled by then, and
      outside of all calls this side waits for: any other is answered as it starts. */
  lemma AwaitsAreOpen(endpoint: nat, host: bool, inline: set<string>, events: seq<Event>, event: Event)
    ensures var start := Fresh(endpoint, host, inline);
      var o, d := Live(start, events), Live(start, events + [event]);
      forall w <- d.end.thread.awaiting :: w in o.end.thread.awaiting || IsOpen(o.end, w)
  {
    var start := Fresh(endpoint, host, inline);
    assert (events + [event])[..|events|] == events;
    LiveSound(endpoint, host, inline, events);
    var o := Live(start, events);
    Network.SoundTables(o.end, o.clock);
    hide Live, Sound, ExportsOk;
    if !o.closed {
      match event
      case Did(act) =>
        if Enabled(o.end, act) {
          PerformWaits(o.end, act, o.clock);
          hide Perform;
        }
      case Heard(f) =>
        if Listening(o.end) {
          ReceiveWaits(o.end, f, o.clock);
          hide Receive;
        }
    }
  }
}
