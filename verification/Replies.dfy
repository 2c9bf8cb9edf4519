/** What each call is answered with: the result it, or its Promise, came to; an error when that is no
    value that can be sent. Over every run, whatever the far end sends. */
module Replies {
  import opened Options
  import opened Wire
  import opened References
  import opened Endpoint
  import opened Encodable
  import opened Arrivals
  import opened Requests
  import opened Growth
  import opened Protocol

  // ── What an answer says ─────────────────────────────────────────

  /** The frame `f` says what `answer` is: its value exactly when that can be sent, each reference in
      it standing for its own, and whether the far end takes the rest; else that it failed, with
      nothing granted. `e`: before; `y`: the exports after. */
  ghost predicate Tells(e: End, y: Exports, path: Path, business: bool, answer: Answer, f: Frame) {
    var ctx := Context(path, business, e.plugins);
    && (f.Return? || f.Throw?)
    && (f.Return? <==>
        answer.Value? && answer.encodes && CanEncode(e.exports, e.imports.records, answer.items, ctx))
    && (f.Return? ==> f.value.sound == answer.sound && Carries(e, y, f.value.refs, answer.items, ctx))
    && (f.Throw? ==> y.entries == e.exports.entries)
  }

  /** The references stand for the items, and what they grant and name is theirs. */
  ghost predicate Carries(e: End, y: Exports, refs: seq<Reference>, items: seq<Item>, ctx: Context) {
    && AllStand(y, e.imports.records, refs, items)
    && AllOut(e.exports, y, items) && NamedFor(e.exports, y, items, ctx)
  }

  lemma CountedToo(x: Exports, y: Exports, records: seq<Record>, refs: seq<Reference>, items: seq<Item>, active: int)
    ensures AllStand(y, records, refs, items) ==> AllStand(y.(active := active), records, refs, items)
    ensures AllOut(x, y, items) ==> AllOut(x, y.(active := active), items)
  {
    var z := y.(active := active);
    assert forall v: Local :: IsOut(z, v) == IsOut(y, v) && GrantsFor(z, v) == GrantsFor(y, v);
    hide IsOut, GrantsFor;
  }

  lemma SameNames(x: Exports, y: Exports, items: seq<Item>, ctx: Context, active: int)
    ensures NamedFor(x, y, items, ctx) ==> NamedFor(x, y.(active := active), items, ctx)
  {}

  /** Answering sends one frame, which tells the answer. */
  lemma RespondTells(e: End, n: nat, path: Path, business: bool, answer: Answer) returns (f: Frame)
    requires e.remote.Some? && ExportsOk(e.exports)
    ensures var d := Respond(e, n, path, business, answer);
      && d == e.(exports := d.exports, log := e.log.(sent := e.log.sent + [f]))
      && (f.Return? || f.Throw?) && f.id == CallId(e.remote.value, n)
      && Tells(e, d.exports, path, business, answer, f)
  {
    hide Encode, CanEncode, AllStand, AllOut, NamedFor, ExportsOk;
    var id, ctx := CallId(e.remote.value, n), Context(path, business, e.plugins);
    match answer
    case Failure => f := Throw(id);
    case Value(items, encodes, sound) =>
      var (y, refs) := Encode(e.exports, e.imports.records, items, encodes, ctx);
      EncodeExactly(e.exports, e.imports.records, items, encodes, ctx);
      SameNames(e.exports, y, items, ctx, y.active - 1);
      if refs.Some? {
        f := Return(id, Payload(refs.value, sound));
        CountedToo(e.exports, y, e.imports.records, refs.value, items, y.active - 1);
      } else {
        f := Throw(id);
      }
  }

  // ── Which call it is ────────────────────────────────────────────

  /** The call of number `n` among frames received. */
  function CallIn(got: seq<Frame>, n: nat): Option<Frame> {
    if got == [] then None
    else
      var last := got[|got| - 1];
      if last.Request? && last.id.number == n then Some(last) else CallIn(got[..|got| - 1], n)
  }

  /** A call is business when it is of a named service, or of what was sent in business. */
  predicate Business(x: Exports, op: Operation) {
    if op.Invoke? then op.target != "" else op.reference in x.names && x.names[op.reference].business
  }

  /** `q` is the call `n` of the far end's, and what it is of was named. */
  predicate IsCall(e: End, n: nat, q: Frame) {
    && CallIn(e.log.got, n) == Some(q) && q.Request? && e.remote.Some? && q.id == CallId(e.remote.value, n)
    && n <= e.received && (q.op.Invoke? || q.op.reference in e.exports.names)
  }

  function PathOf(q: Frame): Path
    requires q.Request?
  {
    q.path + [q.id]
  }

  predicate IsJob(x: Exports, q: Frame, job: Job) {
    q.Request? && job == Job(q.id.number, q.path, q.op, Business(x, q.op))
  }

  predicate JobOk(e: End, j: Job) {
    var q := CallIn(e.log.got, j.number);
    q.Some? && IsCall(e, j.number, q.value) && IsJob(e.exports, q.value, j)
  }

  predicate RunOk(e: End, a: Activation) {
    a.Running? ==>
      var q := CallIn(e.log.got, a.number);
      q.Some? && IsCall(e, a.number, q.value) && !q.value.op.Await? && a.path == PathOf(q.value)
      && a.business == Business(e.exports, q.value.op)
  }

  predicate AwaitOk(e: End, w: Awaited) {
    var q := CallIn(e.log.got, w.number);
    q.Some? && IsCall(e, w.number, q.value) && q.value.op == Await(w.future) && w.path == PathOf(q.value)
    && w.business == Business(e.exports, q.value.op)
  }

  /** All that is queued, runs or awaits is a call received, as it was received. */
  ghost predicate Traced(e: End) {
    && (forall j <- e.thread.queue :: JobOk(e, j))
    && (forall a <- e.thread.stack :: RunOk(e, a))
    && (forall w <- e.thread.awaiting :: AwaitOk(e, w))
  }

  /** `d` comes after `e`, with at most one frame more received: a call only of a later number. */
  ghost predicate Later(e: End, d: End) {
    && e.remote.Some? && d.remote == e.remote && e.received <= d.received && Extends(e.exports, d.exports)
    && (d.log.got == e.log.got || NewFrame(e, d))
  }

  ghost predicate NewFrame(e: End, d: End) {
    && |d.log.got| == |e.log.got| + 1 && d.log.got[..|e.log.got|] == e.log.got
    && (d.log.got[|e.log.got|].Request? ==> d.log.got[|e.log.got|].id.number > e.received)
  }

  lemma CallLater(e: End, d: End, n: nat, q: Frame)
    requires Later(e, d) && IsCall(e, n, q)
    ensures IsCall(d, n, q) && Business(d.exports, q.op) == Business(e.exports, q.op)
  {}

  lemma TracedLater(e: End, d: End)
    requires Traced(e) && Later(e, d)
    ensures forall j <- e.thread.queue :: JobOk(d, j)
    ensures forall a <- e.thread.stack :: RunOk(d, a)
    ensures forall w <- e.thread.awaiting :: AwaitOk(d, w)
  {
    hide IsCall, Later, Business, CallIn;
    forall j <- e.thread.queue ensures JobOk(d, j) { JobLater(e, d, j); }
    forall a <- e.thread.stack ensures RunOk(d, a) { RunLater(e, d, a); }
    forall w <- e.thread.awaiting ensures AwaitOk(d, w) { AwaitLater(e, d, w); }
  }

  lemma JobLater(e: End, d: End, j: Job)
    requires JobOk(e, j) && Later(e, d)
    ensures JobOk(d, j)
  {
    CallLater(e, d, j.number, CallIn(e.log.got, j.number).value);
    IsThat(d, j.number, CallIn(e.log.got, j.number).value);
    hide IsCall, Later, Business;
  }

  lemma RunLater(e: End, d: End, a: Activation)
    requires RunOk(e, a) && Later(e, d)
    ensures RunOk(d, a)
  {
    if a.Running? {
      CallLater(e, d, a.number, CallIn(e.log.got, a.number).value);
      IsThat(d, a.number, CallIn(e.log.got, a.number).value);
      hide IsCall, Later, Business;
    }
  }

  lemma AwaitLater(e: End, d: End, w: Awaited)
    requires AwaitOk(e, w) && Later(e, d)
    ensures AwaitOk(d, w)
  {
    CallLater(e, d, w.number, CallIn(e.log.got, w.number).value);
    IsThat(d, w.number, CallIn(e.log.got, w.number).value);
    hide IsCall, Later, Business;
  }

  lemma IsThat(e: End, n: nat, q: Frame)
    requires IsCall(e, n, q)
    ensures CallIn(e.log.got, n) == Some(q) && q.Request?
  {}

  /** What an end's thread holds came from before, or is a call as it was received. */
  lemma TracedOf(e: End, d: End)
    requires Traced(e) && Later(e, d)
    requires forall j <- d.thread.queue :: j in e.thread.queue || JobOk(d, j)
    requires forall a <- d.thread.stack :: a in e.thread.stack || RunOk(d, a)
    requires forall w <- d.thread.awaiting :: w in e.thread.awaiting || AwaitOk(d, w)
    ensures Traced(d)
  {
    TracedLater(e, d);
    hide JobOk, RunOk, AwaitOk, Later;
  }

  // ── Why a reply is sent ─────────────────────────────────────────

  /** A synchronous call of this side waits that `path` is inside of. */
  ghost predicate Inside(e: End, path: Path) {
    exists i :: 0 <= i < |e.thread.stack| && e.thread.stack[i].Waiting? &&
      CallId(e.endpoint, e.thread.stack[i].number) in path
  }

  predicate HasSettled(x: Exports, future: nat) {
    future in x.futures && x.futures[future].Settled?
  }

  /** The reply `f` to an await tells what the Promise settled to; or fails, when it has not and the
      await is inside a call that its side waits for. */
  ghost predicate TellsPromise(e: End, y: Exports, q: Frame, f: Frame)
    requires q.Request?
  {
    q.op.Await? &&
    if HasSettled(e.exports, q.op.reference)
    then Tells(e, y, PathOf(q), Business(e.exports, q.op), e.exports.futures[q.op.reference].answer, f)
    else f.Throw? && y.entries == e.exports.entries && Inside(e, q.path)
  }

  /** The call `q` started: an await of a Promise that settled, or that would wait for itself, is
      answered; any other is kept; and any other call runs. */
  ghost predicate Begins(e: End, d: End, q: Frame, reply: Option<Frame>)
    requires q.Request?
  {
    && d.log.sent == e.log.sent + (if reply.Some? then [reply.value] else []) && d.log.got == e.log.got
    && (reply.Some? <==> q.op.Await? && (HasSettled(e.exports, q.op.reference) || Inside(e, q.path)))
    && (reply.Some? ==>
        && (reply.value.Return? || reply.value.Throw?) && reply.value.id == q.id
        && TellsPromise(e, d.exports, q, reply.value))
    && d.thread.awaiting == e.thread.awaiting + (if q.op.Await? && reply.None?
        then [Awaited(q.id.number, PathOf(q), q.op.reference, Business(e.exports, q.op))] else [])
    && |d.thread.stack| == |e.thread.stack| + (if q.op.Await? then 0 else 1)
    && d.thread.stack[..|e.thread.stack|] == e.thread.stack
    && (!q.op.Await? ==>
        var last := d.thread.stack[|e.thread.stack|];
        last.Running? && last.number == q.id.number && last.path == PathOf(q)
        && last.business == Business(e.exports, q.op))
  }

  lemma ExecuteBegins(e: End, q: Frame, job: Job, stamp: nat) returns (reply: Option<Frame>)
    requires e.remote.Some? && ExportsOk(e.exports) && IsJob(e.exports, q, job) && q.id.endpoint == e.remote.value
    ensures var d := Execute(e, job, stamp);
      Begins(e, d, q, reply) && d == e.(exports := d.exports, log := d.log, thread := d.thread)
      && d.thread.queue == e.thread.queue && d.thread.micro == e.thread.micro
  {
    var d := Execute(e, job, stamp);
    var entered := e.(thread := e.thread.(contexts := e.thread.contexts + {PathOf(q)}));
    assert q.id == CallId(e.remote.value, job.number);
    assert Related(e, q.path) <==> Inside(e, q.path);
    assert e.log.sent + [] == e.log.sent && e.thread.awaiting + [] == e.thread.awaiting;
    reply := None;
    if q.op.Await? {
      hide Respond, Related, Business, ExportsOk;
      if HasSettled(e.exports, q.op.reference) {
        var f := RespondTells(entered, job.number, PathOf(q), job.business, e.exports.futures[q.op.reference].answer);
        reply := Some(f);
      } else if Inside(e, q.path) {
        var f := RespondTells(entered, job.number, PathOf(q), job.business, Failure);
        reply := Some(f);
      }
    }
  }

  // ── Runs of calls ───────────────────────────────────────────────

  lemma BeginsLater(e: End, d: End, q: Frame, reply: Option<Frame>)
    requires q.Request? && Begins(e, d, q, reply) && ExportsOk(e.exports)
    requires d == e.(exports := d.exports, log := d.log, thread := d.thread) && Extends(e.exports, d.exports)
    requires e.remote.Some?
    ensures Later(e, d)
  {}

  /** A call started leaves the thread's calls what they were received as. */
  lemma BeginsTraced(e: End, d: End, q: Frame, reply: Option<Frame>)
    requires q.Request? && Begins(e, d, q, reply) && Traced(e) && Later(e, d) && IsCall(e, q.id.number, q)
    requires forall j <- d.thread.queue :: j in e.thread.queue
    ensures Traced(d)
  {
    CallLater(e, d, q.id.number, q);
    IsThat(d, q.id.number, q);
    hide IsCall, Later, Business, TellsPromise, CallIn;
    forall a <- d.thread.stack ensures a in e.thread.stack || RunOk(d, a) {
      var i :| 0 <= i < |d.thread.stack| && d.thread.stack[i] == a;
      if i < |e.thread.stack| { assert d.thread.stack[..|e.thread.stack|][i] == e.thread.stack[i]; }
    }
    TracedOf(e, d);
  }

  /** The queued call `number` started. */
  lemma RunBegins(e: End, number: nat, stamp: nat) returns (q: Frame, reply: Option<Frame>)
    requires Traced(e) && ExportsOk(e.exports) && e.remote.Some? && Find(e.thread.queue, number) < |e.thread.queue|
    ensures var d := Run(e, number, stamp);
      && CallIn(e.log.got, number) == Some(q) && q.Request? && q.id.number == number && q.id.endpoint == e.remote.value
      && Begins(e, d, q, reply) && d == e.(exports := d.exports, log := d.log, thread := d.thread)
      && Traced(d)
  {
    var i := Find(e.thread.queue, number);
    var job := e.thread.queue[i];
    assert JobOk(e, job);
    q := CallIn(e.log.got, number).value;
    var picked := e.(thread := e.thread.(queue := e.thread.queue[..i] + e.thread.queue[i + 1..]),
                     log := e.log.(started := e.log.started + [number]));
    IsThat(e, number, q);
    SameCall(e, picked, number, q);
    PickedTraced(e, picked);
    reply := ExecuteBegins(picked, q, job, stamp);
    ExecuteGrows(picked, job, stamp);
    hide Execute, Find, IsCall, CallIn, ExportsOk, Traced, TellsPromise;
    BeginsLater(picked, Run(e, number, stamp), q, reply);
    BeginsTraced(picked, Run(e, number, stamp), q, reply);
    SameTells(e, picked, Run(e, number, stamp).exports, q, reply);
  }

  lemma SameCall(e: End, d: End, n: nat, q: Frame)
    requires IsCall(e, n, q) && d.log.got == e.log.got && d.remote == e.remote && d.received == e.received
    requires d.exports == e.exports
    ensures IsCall(d, n, q) && q.Request? && q.id == CallId(e.remote.value, n)
  {}

  lemma PickedTraced(e: End, d: End)
    requires Traced(e) && e.remote.Some? && d == e.(log := d.log, thread := e.thread.(queue := d.thread.queue))
    requires d.log.got == e.log.got && forall j <- d.thread.queue :: j in e.thread.queue
    ensures Traced(d)
  {
    TracedOf(e, d);
  }

  /** What a reply tells does not depend on what waits or is counted. */
  lemma SameTells(e: End, d: End, y: Exports, q: Frame, reply: Option<Frame>)
    requires q.Request? && d == e.(log := d.log, thread := e.thread.(queue := d.thread.queue))
    ensures reply.Some? ==> TellsPromise(d, y, q, reply.value) == TellsPromise(e, y, q, reply.value)
  {}

  // ── What each event sends ───────────────────────────────────────

  /** The call `n` of the far end's, with the frame heard now. */
  function CallOf(e: End, event: Event, n: nat): Option<Frame> {
    if event.Heard? && event.frame.Request? && event.frame.id.number == n then Some(event.frame)
    else CallIn(e.log.got, n)
  }

  /** The arguments of a call are not taken: a value in them is refused, or a plugin is not for
      this side. */
  predicate ArgsRefused(q: Frame, host: bool)
    requires q.Request?
  {
    !q.op.Await? && !q.op.Get? && (!q.args.sound || exists r <- q.args.refs :: ForOthers(r, host))
  }

  /** The call `q` runs, on top of the stack. */
  predicate RunsOnTop(e: End, q: Frame)
    requires q.Request?
  {
    !q.op.Await? && Top(e).Some? && Top(e).value.Running? && Top(e).value.number == q.id.number
  }

  /** Why the reply `f` is sent: it tells what the call that runs came to, or the Promise awaited;
      or the call was refused for its arguments as it came. */
  ghost predicate Explained(e: End, event: Event, y: Exports, f: Frame)
    requires f.Return? || f.Throw?
  {
    var q := CallOf(e, event, f.id.number);
    q.Some? && q.value.Request? && f.id == q.value.id &&
    ( || TellsPromise(e, y, q.value, f)
      || (event.Did? && event.act.Answering? && RunsOnTop(e, q.value) &&
          Tells(e, y, PathOf(q.value), Business(e.exports, q.value.op), event.act.answer, f))
      || (event == Heard(q.value) && ArgsRefused(q.value, e.host) && f.Throw? && y.entries == e.exports.entries))
  }

  /** What an event sends: replies with a reason, requests for calls of this side's alone. */
  ghost predicate Sends(e: End, event: Event, d: End, sent: seq<Frame>) {
    && d.log.sent == e.log.sent + sent
    && forall f <- sent :: Fair(e, event, d.exports, f)
  }

  ghost predicate Fair(e: End, event: Event, y: Exports, f: Frame) {
    && !f.Hello? && (f.Request? ==> event.Did? && event.act.Ask?)
    && (f.Return? || f.Throw? ==> Explained(e, event, y, f))
  }

  lemma SendsNothing(e: End, event: Event, d: End)
    requires d.log.sent == e.log.sent
    ensures Sends(e, event, d, [])
  {
    assert e.log.sent + [] == e.log.sent;
  }

  lemma BeginsSends(e: End, event: Event, d: End, q: Frame, reply: Option<Frame>)
    requires q.Request? && Begins(e, d, q, reply) && CallOf(e, event, q.id.number) == Some(q)
    ensures Sends(e, event, d, if reply.Some? then [reply.value] else [])
  {
    hide TellsPromise;
  }

  lemma RunSends(e: End, number: nat, stamp: nat, act: Act) returns (sent: seq<Frame>)
    requires Traced(e) && ExportsOk(e.exports) && e.remote.Some?
    ensures Sends(e, Did(act), Run(e, number, stamp), sent) && Traced(Run(e, number, stamp))
  {
    if Find(e.thread.queue, number) < |e.thread.queue| {
      var q, reply := RunBegins(e, number, stamp);
      hide Run, ExportsOk, Traced, Begins;
      BeginsSends(e, Did(act), Run(e, number, stamp), q, reply);
      sent := if reply.Some? then [reply.value] else [];
    } else {
      SendsNothing(e, Did(act), e);
      sent := [];
    }
  }

  lemma AnsweringSends(e: End, answer: Answer, stamp: nat) returns (f: Frame)
    requires Traced(e) && ExportsOk(e.exports) && Enabled(e, Answering(answer))
    ensures var d := Perform(e, Answering(answer), stamp);
      Sends(e, Did(Answering(answer)), d, [f]) && (f.Return? || f.Throw?) && Traced(d)
  {
    var run, d := Top(e).value, Perform(e, Answering(answer), stamp);
    assert RunOk(e, e.thread.stack[|e.thread.stack| - 1]);
    f := RespondTells(Pop(e), run.number, run.path, run.business, answer);
    RespondGrows(Pop(e), run.number, run.path, run.business, answer);
    IsThat(e, run.number, CallIn(e.log.got, run.number).value);
    hide Respond, Tells, ExportsOk, CallIn;
    PoppedTells(e, d.exports, run.path, run.business, answer, f);
    TracedOf(e, d);
  }

  lemma PoppedTells(e: End, y: Exports, path: Path, business: bool, answer: Answer, f: Frame)
    requires e.thread.stack != []
    ensures Tells(Pop(e), y, path, business, answer, f) == Tells(e, y, path, business, answer, f)
  {}

  lemma ReportSends(e: End, i: nat, stamp: nat) returns (f: Frame)
    requires Traced(e) && ExportsOk(e.exports) && Enabled(e, Report(i))
    ensures var d := Perform(e, Report(i), stamp);
      Sends(e, Did(Report(i)), d, [f]) && (f.Return? || f.Throw?) && Traced(d)
  {
    var w, d := e.thread.awaiting[i], Perform(e, Report(i), stamp);
    var picked := e.(thread := e.thread.(awaiting := e.thread.awaiting[..i] + e.thread.awaiting[i + 1..]));
    assert AwaitOk(e, w);
    var answer := e.exports.futures[w.future].answer;
    f := RespondTells(picked, w.number, w.path, w.business, answer);
    RespondGrows(picked, w.number, w.path, w.business, answer);
    IsThat(e, w.number, CallIn(e.log.got, w.number).value);
    hide Respond, Tells, ExportsOk, CallIn;
    PickedTells(e, picked, d.exports, w.path, w.business, answer, f);
    TracedOf(e, d);
  }

  lemma PickedTells(e: End, picked: End, y: Exports, path: Path, business: bool, answer: Answer, f: Frame)
    requires picked == e.(thread := picked.thread)
    ensures Tells(picked, y, path, business, answer, f) == Tells(e, y, path, business, answer, f)
  {}

  lemma AskSends(e: End, act: Act, stamp: nat) returns (sent: seq<Frame>)
    requires Traced(e) && ExportsOk(e.exports) && e.remote.Some? && act.Ask?
    ensures var d := AskFor(e, act.want, act.items, act.encodes, act.sound, act.sync, act.path, stamp);
      Sends(e, Did(act), d, sent) && Traced(d)
  {
    var d := AskFor(e, act.want, act.items, act.encodes, act.sound, act.sync, act.path, stamp);
    sent := AskExactly(e, act.want, act.items, act.encodes, act.sound, act.sync, act.path, stamp);
    AskGrows(e, act.want, act.items, act.encodes, act.sound, act.sync, act.path, stamp);
    hide AskFor, CanAsk, ExportsOk, Arguments, IsOf, IsPath, RunOk, JobOk, AwaitOk, Explained;
    if sent == [] {
      SendsNothing(e, Did(act), d);
    } else {
      assert sent == [sent[0]];
      forall a <- d.thread.stack ensures a in e.thread.stack || RunOk(d, a) { if a.Waiting? { WaitOk(d, a); } }
    }
    TracedOf(e, d);
  }

  lemma WaitOk(e: End, a: Activation)
    requires a.Waiting?
    ensures RunOk(e, a)
  {}

  /** Only the stack and what is to run differ, with no new call on it. */
  lemma QuietTraced(e: End, d: End)
    requires Traced(e) && d == e.(exports := d.exports, imports := d.imports, log := d.log, thread := d.thread)
    requires d.log.got == e.log.got && Extends(e.exports, d.exports)
    requires d.thread.queue == e.thread.queue && d.thread.awaiting == e.thread.awaiting
    requires forall a <- d.thread.stack :: a in e.thread.stack || a.Waiting?
    ensures Traced(d)
  {
    if e.remote.Some? {
      forall a <- d.thread.stack ensures a in e.thread.stack || RunOk(d, a) { if a.Waiting? { WaitOk(d, a); } }
      hide RunOk, JobOk, AwaitOk;
      TracedOf(e, d);
    } else {
      forall a <- d.thread.stack ensures RunOk(d, a) {
        if a in e.thread.stack { assert RunOk(e, a); } else { WaitOk(d, a); }
      }
    }
  }

  /** What neither calls, answers nor starts a call. */
  predicate IsQuiet(act: Act) {
    act.Wake? || act.Settle? || act.Collect? || act.Free?
  }

  lemma QuietSends(e: End, act: Act, stamp: nat) returns (sent: seq<Frame>)
    requires Traced(e) && IsQuiet(act) && Enabled(e, act)
    ensures Sends(e, Did(act), Perform(e, act, stamp), sent) && Traced(Perform(e, act, stamp))
  {
    var d := Perform(e, act, stamp);
    sent := if act.Free? then GiveBack(e.imports, act.record).1 else [];
    assert e.log.sent + [] == e.log.sent;
    assert forall a <- d.thread.stack :: a in e.thread.stack;
    hide Explained, RunOk, JobOk, AwaitOk;
    QuietTraced(e, d);
  }

  lemma DrainSends(e: End, stamp: nat) returns (sent: seq<Frame>)
    requires Traced(e) && ExportsOk(e.exports) && Enabled(e, Drain)
    ensures Sends(e, Did(Drain), Perform(e, Drain, stamp), sent) && Traced(Perform(e, Drain, stamp))
  {
    if e.thread.queue == [] {
      sent := [];
      var d := SetDraining(e, false);
      SendsNothing(e, Did(Drain), d);
      hide RunOk, JobOk, AwaitOk, Explained, Run;
      QuietTraced(e, d);
    } else {
      sent := RunSends(e, e.thread.queue[0].number, stamp, Drain);
    }
  }

  lemma MicroSends(e: End, stamp: nat) returns (sent: seq<Frame>)
    requires Traced(e) && ExportsOk(e.exports) && Enabled(e, Micro)
    ensures Sends(e, Did(Micro), Perform(e, Micro, stamp), sent) && Traced(Perform(e, Micro, stamp))
  {
    var next := e.(thread := e.thread.(micro := e.thread.micro[1..]));
    hide RunOk, JobOk, AwaitOk, Run;
    QuietTraced(e, next);
    sent := RunSends(next, e.thread.micro[0], stamp, Micro);
    hide ExportsOk, Traced;
    LaterSends(e, next, Run(next, e.thread.micro[0], stamp), sent);
  }

  lemma LaterSends(e: End, next: End, d: End, sent: seq<Frame>)
    requires next == e.(thread := next.thread) && next.thread.stack == e.thread.stack
    requires Sends(next, Did(Micro), d, sent)
    ensures Sends(e, Did(Micro), d, sent)
  {
    forall f <- sent ensures Fair(e, Did(Micro), d.exports, f) { assert Fair(next, Did(Micro), d.exports, f); }
  }

  /** Whatever this side does, a reply it sends has a reason. */
  lemma PerformSends(e: End, act: Act, stamp: nat) returns (sent: seq<Frame>)
    requires Traced(e) && ExportsOk(e.exports) && Enabled(e, act)
    ensures Sends(e, Did(act), Perform(e, act, stamp), sent) && Traced(Perform(e, act, stamp))
  {
    hide Sends, Traced, ExportsOk;
    match act
    case Ask(_, _, _, _, _, _) => sent := AskSends(e, act, stamp);
    case Answering(answer) => var f := AnsweringSends(e, answer, stamp); sent := [f];
    case Micro => sent := MicroSends(e, stamp);
    case Drain => sent := DrainSends(e, stamp);
    case Report(i) => var f := ReportSends(e, i, stamp); sent := [f];
    case Wake => sent := QuietSends(e, act, stamp);
    case Settle(_, _) => sent := QuietSends(e, act, stamp);
    case Collect(_) => sent := QuietSends(e, act, stamp);
    case Free(_) => sent := QuietSends(e, act, stamp);
  }
}
