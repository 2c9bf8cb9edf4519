/** How each call that comes is taken, and when calls start: over every run of one session. */
module Starts {
  import opened Options
  import opened Wire
  import opened References
  import opened Endpoint
  import opened Invariant
  import opened Replies
  import opened Protocol
  import opened Faults
  import Account
  import Conduct
  import Growth
  import Steps

  /** A frame is read now: by the event loop, or by a call of this side's that drained the queue and
      waits. */
  predicate Listens(o: Solo) {
    && !o.closed
    && (o.end.thread.stack == [] ||
        var top := o.end.thread.stack[|o.end.thread.stack| - 1]; top.Waiting? && !top.draining)
  }

  /** A call of the session's own control, that runs as its frame comes. */
  predicate IsControl(e: End, f: Frame)
    requires f.Request?
  {
    f.op.Invoke? && f.op.target == "" && f.op.name in e.inline
  }

  /** What changes when calls come and start: the logs of calls, and the paths entered. */
  ghost predicate Logs(
    e: End, d: End, refused: seq<nat>, inlined: seq<nat>, queued: seq<nat>, started: seq<nat>, entered: set<Path>) {
    && d.log.refused == e.log.refused + refused && d.log.inlined == e.log.inlined + inlined
    && d.log.queued == e.log.queued + queued && d.log.started == e.log.started + started
    && d.thread.contexts == e.thread.contexts + entered
  }

  lemma SameLogs(e: End, d: End)
    requires d.log == e.log.(sent := d.log.sent, got := d.log.got) && d.thread.contexts == e.thread.contexts
    ensures Logs(e, d, [], [], [], [], {})
  {}

  lemma RespondLogs(e: End, n: nat, path: Path, business: bool, answer: Answer)
    requires e.remote.Some?
    ensures var d := Respond(e, n, path, business, answer);
      d.log == e.log.(sent := d.log.sent) && d.thread == e.thread
  {
    hide Encode;
  }

  lemma ExecuteEnters(e: End, job: Job, stamp: nat)
    requires e.remote.Some?
    ensures var d := Execute(e, job, stamp);
      && d.log == e.log.(sent := d.log.sent)
      && d.thread.contexts == e.thread.contexts + {job.path + [CallId(e.remote.value, job.number)]}
  {
    hide Respond, Related;
    var path := job.path + [CallId(e.remote.value, job.number)];
    var entered := e.(thread := e.thread.(contexts := e.thread.contexts + {path}));
    if job.op.Await? && HasSettled(e.exports, job.op.reference) {
      RespondLogs(entered, job.number, path, job.business, e.exports.futures[job.op.reference].answer);
    } else {
      RespondLogs(entered, job.number, path, job.business, Failure);
    }
  }

  /** The queued call `number` starts, if it did not before. */
  lemma RunEnters(e: End, number: nat, stamp: nat)
    requires Traced(e) && e.remote.Some?
    ensures var d, i := Run(e, number, stamp), Find(e.thread.queue, number);
      if i == |e.thread.queue| then d == e
      else
        var q := CallIn(e.log.got, number);
        q.Some? && q.value.Request? && q.value.id.number == number
        && Logs(e, d, [], [], [], [number], {PathOf(q.value)})
  {
    var i := Find(e.thread.queue, number);
    if i < |e.thread.queue| {
      var job := e.thread.queue[i];
      assert JobOk(e, job);
      var picked := e.(thread := e.thread.(queue := e.thread.queue[..i] + e.thread.queue[i + 1..]),
                       log := e.log.(started := e.log.started + [number]));
      hide Find, Execute, Traced;
      ExecuteEnters(picked, job, stamp);
    }
  }

  // ── A call that comes ───────────────────────────────────────────

  /** How a call just heard is taken: refused for its arguments; run at once when it is the session's
      own control; else queued, and started at once when a call of this side's waits. */
  ghost predicate TakesCall(e: End, d: End, f: Frame)
    requires f.Request?
  {
    var n := f.id.number;
    if ArgsRefused(f, e.host) then Logs(e, d, [n], [], [], [], {})
    else if IsControl(e, f) then Logs(e, d, [], [n], [], [], {PathOf(f)})
    else if e.thread.stack != [] then Logs(e, d, [], [], [n], [n], {PathOf(f)})
    else Logs(e, d, [], [], [n], [], {})
  }

  lemma ScheduleTakes(e: End, f: Frame, begun: End, job: Job, stamp: nat)
    requires e.remote.Some? && f.Request? && f.id.endpoint == e.remote.value && !ArgsRefused(f, e.host)
    requires begun.log == e.log.(sent := begun.log.sent, got := begun.log.got) && begun.thread == e.thread
    requires begun.remote == e.remote && begun.inline == e.inline && begun.host == e.host
    requires job.number == f.id.number && job.path == f.path && job.op == f.op
    requires (e.thread.stack != [] ==> e.thread.queue == []) && (IsWaiting(e.thread.stack) <==> e.thread.stack != [])
    ensures TakesCall(e, Schedule(begun, job, stamp), f)
  {
    hide Execute, Run, IsWaiting, ArgsRefused;
    if IsControl(e, f) {
      ExecuteEnters(Inlined(begun, job.number), job, stamp);
    } else if e.thread.stack != [] {
      Steps.RunQueued(begun, job, stamp);
      ExecuteEnters(Account.FirstTaken(Enqueue(begun, job)), job, stamp);
      hide Schedule;
      assert Account.FirstTaken(Enqueue(begun, job)).log.started == e.log.started + [job.number];
    }
  }

  lemma ListensIs(o: Solo)
    requires Sound(o.end, o.clock) && !o.closed
    ensures Listens(o) <==> Listening(o.end)
    ensures Listens(o) ==> (IsWaiting(o.end.thread.stack) <==> o.end.thread.stack != [])
    ensures Listens(o) && o.end.thread.stack != [] ==> o.end.thread.queue == []
  {
    if Listens(o) { Conduct.PumpingQueue(o.end, o.clock); }
    var stack := o.end.thread.stack;
    assert Listens(o) && stack != [] ==> stack[|stack| - 1].Waiting?;
    hide Sound;
  }

  lemma RequestTakes(e: End, f: Frame, stamp: nat)
    requires ImportsOk(e.imports) && f.Request? && !Receive(e, f, stamp).1
    requires e.thread.stack != [] ==> e.thread.queue == []
    requires IsWaiting(e.thread.stack) <==> e.thread.stack != []
    ensures var d := Receive(e, f, stamp).0; TakesCall(e, d, f)
  {
    var k := TakeArgs(e, f.op, f.args);
    assert e.remote == Some(f.id.endpoint) && !k.fault;
    Conduct.ArgsSend(e, f);
    hide TakeArgs, Schedule, Acceptable, ArgsRefused, ImportsOk, IsWaiting;
    var business := IsBusiness(e.exports, f.op);
    var begun := Begin(Taken(e, f, f.id.number, k), business);
    if !k.refused {
      hide TakesCall;
      ScheduleTakes(e, f, begun, Job(f.id.number, f.path, f.op, business), stamp);
      assert Receive(e, f, stamp).0 == Schedule(begun, Job(f.id.number, f.path, f.op, business), stamp);
    }
  }

  lemma OtherLogs(e: End, f: Frame, stamp: nat)
    requires !f.Request?
    ensures Logs(e, Receive(e, f, stamp).0, [], [], [], [], {})
  {
    hide Take;
  }

  lemma ReceiveLogsGot(e: End, f: Frame, stamp: nat)
    requires ExportsOk(e.exports) && !Receive(e, f, stamp).1
    ensures Receive(e, f, stamp).0.log.got == e.log.got + [f]
  {
    Growth.ReceiveGrows(e, f, stamp);
  }

  /** Over every run, a frame is read when the session listens; a fault closes it; any other is noted,
      and a call taken as it should be. */
  lemma HeardExactly(endpoint: nat, host: bool, inline: set<string>, events: seq<Event>, f: Frame)
    ensures var start := Fresh(endpoint, host, inline);
      var o, d := Live(start, events), Live(start, events + [Heard(f)]);
      if !Listens(o) then d == o
      else if IsFault(o.end, f) then d == o.(closed := true)
      else
        && !d.closed && d.end.log.got == o.end.log.got + [f]
        && (f.Hello? ==> d.end == o.end.(remote := Some(f.endpoint), plugins := f.plugins, log := d.end.log))
        && if f.Request? then TakesCall(o.end, d.end, f) else Logs(o.end, d.end, [], [], [], [], {})
  {
    var start := Fresh(endpoint, host, inline);
    assert (events + [Heard(f)])[..|events|] == events;
    LiveSound(endpoint, host, inline, events);
    FaultsExactly(endpoint, host, inline, events, f);
    var o := Live(start, events);
    Basics(o.end, o.clock);
    if !o.closed { ListensIs(o); }
    hide Live, Sound, IsFault, Receive, TakesCall, ExportsOk, ImportsOk, Logs, IsWaiting, Listening;
    if Listens(o) && !IsFault(o.end, f) {
      ReceiveLogsGot(o.end, f, o.clock);
      if f.Request? { RequestTakes(o.end, f, o.clock); } else { OtherLogs(o.end, f, o.clock); }
      if f.Hello? { GreetIs(o.end, f, o.clock); }
    }
  }

  lemma GreetIs(e: End, f: Frame, stamp: nat)
    requires f.Hello? && !Receive(e, f, stamp).1
    ensures var d := Receive(e, f, stamp).0;
      d == e.(remote := Some(f.endpoint), plugins := f.plugins, log := d.log)
  {}

  // ── Calls that were queued ──────────────────────────────────────

  /** The call that starts next, if this act starts one: that of the microtask that runs, if it did
      not start before; or the first queued, when a call of this side's drains the queue. */
  function StartsNext(o: Solo, act: Act): Option<nat> {
    var th := o.end.thread;
    if o.closed then None
    else if act.Micro? && th.stack == [] && th.micro != [] && th.micro[0] in Numbers(th.queue) then Some(th.micro[0])
    else if act.Drain? && th.stack != [] && th.stack[|th.stack| - 1].Waiting? && th.stack[|th.stack| - 1].draining &&
      th.queue != [] then Some(th.queue[0].number)
    else None
  }

  lemma FindsQueued(queue: seq<Job>, n: nat)
    ensures Find(queue, n) < |queue| <==> n in Numbers(queue)
  {
    var i := Find(queue, n);
    if i < |queue| { assert Numbers(queue)[i] == n; }
    if n in Numbers(queue) {
      var k :| 0 <= k < |queue| && Numbers(queue)[k] == n;
      assert queue[k].number == n;
    }
  }

  /** `n` starts: it enters its path. */
  ghost predicate StartsCall(e: End, d: End, n: Option<nat>) {
    if n.None? then Logs(e, d, [], [], [], [], {})
    else
      var q := CallIn(e.log.got, n.value);
      q.Some? && q.value.Request? && q.value.id.number == n.value
      && Logs(e, d, [], [], [], [n.value], {PathOf(q.value)})
  }

  lemma RunStarts(e: End, before: End, number: nat, stamp: nat)
    requires Traced(e) && e.remote.Some? && before.log == e.log && before.thread.contexts == e.thread.contexts
    ensures StartsCall(before, Run(e, number, stamp), if number in Numbers(e.thread.queue) then Some(number) else None)
  {
    FindsQueued(e.thread.queue, number);
    RunEnters(e, number, stamp);
    hide Run, Find, Traced, CallIn;
    SameLogs(before, e);
  }

  lemma MicroStarts(o: Solo)
    requires Traced(o.end) && !o.closed && Enabled(o.end, Micro)
    ensures StartsCall(o.end, Perform(o.end, Micro, o.clock), StartsNext(o, Micro))
  {
    var e := o.end;
    var next := e.(thread := e.thread.(micro := e.thread.micro[1..]));
    hide Run, StartsCall, JobOk, RunOk, AwaitOk;
    Replies.QuietTraced(e, next);
    RunStarts(next, e, e.thread.micro[0], o.clock);
  }

  lemma DrainStarts(o: Solo)
    requires Traced(o.end) && !o.closed && Enabled(o.end, Drain)
    ensures StartsCall(o.end, Perform(o.end, Drain, o.clock), StartsNext(o, Drain))
  {
    var e := o.end;
    if e.thread.queue == [] {
      SameLogs(e, SetDraining(e, false));
    } else {
      hide Run, StartsCall, Traced;
      assert Numbers(e.thread.queue)[0] == e.thread.queue[0].number;
      RunStarts(e, e, e.thread.queue[0].number, o.clock);
    }
  }

  lemma OtherActs(e: End, act: Act, stamp: nat)
    requires Enabled(e, act) && !act.Micro? && !act.Drain?
    ensures Logs(e, Perform(e, act, stamp), [], [], [], [], {})
  {
    hide Respond, Encode, Run, OperationOf, Prepare, RequestOf;
    match act
    case Answering(answer) =>
      RespondLogs(Pop(e), Top(e).value.number, Top(e).value.path, Top(e).value.business, answer);
    case Report(i) =>
      var w := e.thread.awaiting[i];
      RespondLogs(e.(thread := e.thread.(awaiting := e.thread.awaiting[..i] + e.thread.awaiting[i + 1..])),
                  w.number, w.path, w.business, e.exports.futures[w.future].answer);
    case _ =>
  }

  /** Over every run, of what this side does a microtask and a drain start calls, and nothing else:
      the microtask its own, the drain the first that is queued. */
  lemma StartsExactly(endpoint: nat, host: bool, inline: set<string>, events: seq<Event>, act: Act)
    ensures var start := Fresh(endpoint, host, inline);
      var o, d := Live(start, events), Live(start, events + [Did(act)]);
      StartsCall(o.end, d.end, StartsNext(o, act))
  {
    var start := Fresh(endpoint, host, inline);
    assert (events + [Did(act)])[..|events|] == events;
    LiveSound(endpoint, host, inline, events);
    Conduct.LiveTraced(endpoint, host, inline, events);
    var o := Live(start, events);
    if o.end.thread.stack != [] || o.end.thread.micro != [] { ThreadGreeted(o.end, o.clock); }
    hide Live, Sound, Traced, Perform;
    if !o.closed && Enabled(o.end, act) {
      match act
      case Micro => MicroStarts(o);
      case Drain => DrainStarts(o);
      case _ => OtherActs(o.end, act, o.clock);
    } else {
      SameLogs(o.end, o.end);
    }
  }

  lemma ThreadGreeted(e: End, clock: nat)
    requires Sound(e, clock) && (e.thread.stack != [] || e.thread.micro != [])
    ensures e.remote.Some?
  {}

  // ── What is left to run ─────────────────────────────────────────

  lemma ExecuteLeaves(e: End, job: Job, stamp: nat)
    requires e.remote.Some?
    ensures var d := Execute(e, job, stamp);
      d.thread.queue == e.thread.queue && d.thread.micro == e.thread.micro && e.thread.stack <= d.thread.stack
  {
    hide Encode, Related;
  }

  /** The queue without the first call of this number. */
  function Unqueued(queue: seq<Job>, n: nat): seq<Job> {
    if queue == [] then [] else if queue[0].number == n then queue[1..] else [queue[0]] + Unqueued(queue[1..], n)
  }

  lemma {:induction false} UnqueuedIs(queue: seq<Job>, n: nat)
    ensures var i := Find(queue, n); Unqueued(queue, n) == if i == |queue| then queue else queue[..i] + queue[i + 1..]
    decreases |queue|
  {
    if queue != [] && queue[0].number != n {
      UnqueuedIs(queue[1..], n);
      var i, rest := Find(queue, n), queue[1..];
      assert i == 1 + Find(rest, n) && Unqueued(queue, n) == [queue[0]] + Unqueued(rest, n);
      hide Find, Unqueued;
      assert queue == [queue[0]] + rest;
      assert i < |queue| ==> queue[..i] == [queue[0]] + rest[..i - 1] && queue[i + 1..] == rest[i..];
    }
  }

  lemma RunLeaves(e: End, number: nat, stamp: nat)
    requires e.remote.Some?
    ensures var d := Run(e, number, stamp);
      && d.thread.queue == Unqueued(e.thread.queue, number) && d.thread.micro == e.thread.micro
      && e.thread.stack <= d.thread.stack
  {
    UnqueuedIs(e.thread.queue, number);
    hide Execute, Find, Unqueued;
    var i := Find(e.thread.queue, number);
    if i < |e.thread.queue| {
      ExecuteLeaves(e.(thread := e.thread.(queue := e.thread.queue[..i] + e.thread.queue[i + 1..]),
                       log := e.log.(started := e.log.started + [number])), e.thread.queue[i], stamp);
    }
  }

  /** A synchronous call that drains the queue is on top of the stack. */
  predicate IsDraining(o: Solo) {
    !o.closed && o.end.log.got != [] && o.end.thread.stack != [] &&
    var top := o.end.thread.stack[|o.end.thread.stack| - 1]; top.Waiting? && top.draining
  }

  lemma HappenDrains(o: Solo)
    requires o.end.remote.Some? <==> o.end.log.got != []
    ensures var th, after := o.end.thread, Happen(o, Did(Drain)).end.thread;
      if !IsDraining(o) then after == th
      else if th.queue == [] then
        after == th.(stack := th.stack[..|th.stack| - 1] + [th.stack[|th.stack| - 1].(draining := false)])
      else after.queue == th.queue[1..] && after.micro == th.micro && th.stack <= after.stack
  {
    hide Run;
    if IsDraining(o) && o.end.thread.queue != [] { RunLeaves(o.end, o.end.thread.queue[0].number, o.clock); }
  }

  /** Over every run, a microtask runs once, and takes its call off the queue; a drain takes off the
      first call, and ends when there is none: then the wait reads frames. */
  lemma TurnsExactly(endpoint: nat, host: bool, inline: set<string>, events: seq<Event>)
    ensures var start := Fresh(endpoint, host, inline);
      var o := Live(start, events);
      var th, micro, drain :=
        o.end.thread, Live(start, events + [Did(Micro)]).end.thread, Live(start, events + [Did(Drain)]).end.thread;
      && (if !o.closed && th.stack == [] && th.micro != [] then
            micro.micro == th.micro[1..] && micro.queue == Unqueued(th.queue, th.micro[0])
          else micro == th)
      && (if !IsDraining(o) then drain == th
          else if th.queue == [] then
            drain == th.(stack := th.stack[..|th.stack| - 1] + [th.stack[|th.stack| - 1].(draining := false)])
          else drain.queue == th.queue[1..] && drain.micro == th.micro && th.stack <= drain.stack)
  {
    var start := Fresh(endpoint, host, inline);
    assert (events + [Did(Micro)])[..|events|] == events && (events + [Did(Drain)])[..|events|] == events;
    LiveSound(endpoint, host, inline, events);
    var o := Live(start, events);
    Basics(o.end, o.clock);
    if o.end.thread.micro != [] { ThreadGreeted(o.end, o.clock); }
    hide Live, Sound, ExportsOk, ImportsOk, Happen, Unqueued;
    HappenDrains(o);
    HappenMicro(o);
  }

  lemma HappenMicro(o: Solo)
    requires o.end.thread.micro != [] ==> o.end.remote.Some?
    ensures var th, after := o.end.thread, Happen(o, Did(Micro)).end.thread;
      if !o.closed && th.stack == [] && th.micro != [] then
        after.micro == th.micro[1..] && after.queue == Unqueued(th.queue, th.micro[0])
      else after == th
  {
    hide Run, Unqueued;
    var th := o.end.thread;
    if !o.closed && th.stack == [] && th.micro != [] {
      RunLeaves(o.end.(thread := th.(micro := th.micro[1..])), th.micro[0], o.clock);
    }
  }
}
