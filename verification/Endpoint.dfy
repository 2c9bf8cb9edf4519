/** One session: its state, and what each thing that happens to it does. */
module Endpoint {
  import opened Options
  import opened Wire
  import opened References

  /** A call of the far end's, taken and not yet started. */
  datatype Job = Job(number: nat, path: Path, op: Operation, business: bool)

  /** What is on the thread: a call of the far end's running, or a synchronous call of this
      side's waiting. A wait first drains the queue, then pumps frames until it is answered.
      `stamp` orders the entries of both sides in time; no code reads it. */
  datatype Activation =
    | Running(number: nat, path: Path, business: bool, stamp: nat)
    | Waiting(number: nat, draining: bool, stamp: nat)

  /** An `await` of the far end's, registered on a Promise that has not settled. */
  datatype Awaited = Awaited(number: nat, path: Path, future: nat, business: bool)

  datatype Thread = Thread(
    queue: seq<Job>, micro: seq<nat>, stack: seq<Activation>, awaiting: seq<Awaited>, contexts: set<Path>)

  /** History: the frames sent and received; the calls queued and started, in order; and those
      refused for their arguments, or run at once as their frames came. */
  datatype Log = Log(
    sent: seq<Frame>, got: seq<Frame>, queued: seq<nat>, started: seq<nat>, refused: seq<nat>, inlined: seq<nat>)

  datatype End = End(
    endpoint: nat, host: bool, inline: set<string>,
    remote: Option<nat>, plugins: bool,
    next: nat, received: nat, pending: set<nat>,
    exports: Exports, imports: Imports, thread: Thread, log: Log)

  /** A session that greeted and heard nothing yet. */
  function Start(endpoint: nat, host: bool, inline: set<string>): End {
    End(endpoint, host, inline, None, false, 0, 0, {},
        Exports(0, map[], map[], map[], 0, map[]), Imports(map[], []),
        Thread([], [], [], [], {}),
        Log([Hello(PROTOCOL, endpoint, host)], [], [], [], [], []))
  }

  function Send(e: End, frames: seq<Frame>): End {
    e.(log := e.log.(sent := e.log.sent + frames))
  }

  function Got(e: End, f: Frame): End {
    e.(log := e.log.(got := e.log.got + [f]))
  }

  // ── Answering ───────────────────────────────────────────────────

  /** One business call less in progress. */
  function Finish(e: End, business: bool): End {
    if business then e.(exports := e.exports.(active := e.exports.active - 1)) else e
  }

  /** Answer the far end's call: a result that cannot be sent is an error instead. */
  function Respond(e: End, number: nat, path: Path, business: bool, answer: Answer): End
    requires e.remote.Some?
  {
    var id := CallId(e.remote.value, number);
    match answer
    case Failure => Finish(Send(e, [Throw(id)]), business)
    case Value(items, encodes, sound) =>
      var (exports, refs) := Encode(e.exports, e.imports.records, items, encodes, Context(path, business, e.plugins));
      var reply := if refs.Some? then Return(id, Payload(refs.value, sound)) else Throw(id);
      Finish(Send(e.(exports := exports), [reply]), business)
  }

  // ── Running calls ───────────────────────────────────────────────

  predicate IsWaiting(stack: seq<Activation>) {
    exists i :: 0 <= i < |stack| && stack[i].Waiting?
  }

  /** Whether a call with this path belongs to a synchronous call of this side that waits. */
  predicate Related(e: End, path: Path) {
    exists i :: 0 <= i < |e.thread.stack| && e.thread.stack[i].Waiting? &&
      CallId(e.endpoint, e.thread.stack[i].number) in path
  }

  function Execute(e: End, job: Job, stamp: nat): End
    requires e.remote.Some?
  {
    var path := job.path + [CallId(e.remote.value, job.number)];
    var entered := e.(thread := e.thread.(contexts := e.thread.contexts + {path}));
    if job.op.Await? then
      if job.op.reference in e.exports.futures && e.exports.futures[job.op.reference].Settled? then
        Respond(entered, job.number, path, job.business, e.exports.futures[job.op.reference].answer)
      else if Related(e, job.path) then Respond(entered, job.number, path, job.business, Failure)
      else entered.(thread := entered.thread.(awaiting := e.thread.awaiting +
        [Awaited(job.number, path, job.op.reference, job.business)]))
    else entered.(thread := entered.thread.(stack := e.thread.stack + [Running(job.number, path, job.business, stamp)]))
  }

  /** Where the job `number` is in the queue, its length when it is not. */
  function Find(queue: seq<Job>, number: nat): (i: nat)
    ensures i <= |queue|
    ensures i < |queue| ==> queue[i].number == number
    ensures forall k :: 0 <= k < i ==> queue[k].number != number
  {
    if queue == [] || queue[0].number == number then 0 else 1 + Find(queue[1..], number)
  }

  function Enqueue(e: End, job: Job): End {
    e.(thread := e.thread.(queue := e.thread.queue + [job]), log := e.log.(queued := e.log.queued + [job.number]))
  }

  /** Start the queued job `number`; nothing when it was started before. */
  function Run(e: End, number: nat, stamp: nat): End
    requires e.remote.Some?
  {
    var i := Find(e.thread.queue, number);
    if i == |e.thread.queue| then e
    else
      var job := e.thread.queue[i];
      Execute(e.(thread := e.thread.(queue := e.thread.queue[..i] + e.thread.queue[i + 1..]),
                 log := e.log.(started := e.log.started + [number])), job, stamp)
  }

  // ── Receiving ───────────────────────────────────────────────────

  /** A reply to a call of this side. */
  function Reply(e: End, f: Frame, id: CallId, value: Payload): (End, bool) {
    var k := Take(e.exports, e.imports, value, e.host);
    if k.fault || id.endpoint != e.endpoint || id.number !in e.pending then (e, true)
    else (Send(Got(e, f), k.releases).(imports := k.imports, pending := e.pending - {id.number}), false)
  }

  /** What a request carries, as this side takes it. */
  function TakeArgs(e: End, op: Operation, args: Payload): Taking {
    if op.Await? || op.Get? then Taking(e.imports, [], false, false) else Take(e.exports, e.imports, args, e.host)
  }

  function IsBusiness(x: Exports, op: Operation): bool {
    if op.Invoke? then op.target != "" else op.reference in x.entries && x.entries[op.reference].name.business
  }

  /** Whether a request names a call this side can start. */
  predicate Acceptable(e: End, id: CallId, path: Path, op: Operation) {
    && e.remote == Some(id.endpoint) && id !in path
    && 1 <= id.number <= MAX_SAFE && id.number > e.received
    && (op.Invoke? || Exported(e.exports, op.reference, TargetKind(op)))
  }

  /** The call taken: its arguments decoded and its frame noted. */
  function Taken(e: End, f: Frame, number: nat, k: Taking): End {
    Send(Got(e, f), k.releases).(received := number, imports := k.imports)
  }

  function Begin(e: End, business: bool): End {
    if business then e.(exports := e.exports.(active := e.exports.active + 1)) else e
  }

  /** A call whose arguments are refused: answered with an error. */
  function Refuse(e: End, id: CallId): End {
    e.(log := e.log.(sent := e.log.sent + [Throw(id)], refused := e.log.refused + [id.number]))
  }

  function Inlined(e: End, number: nat): End {
    e.(log := e.log.(inlined := e.log.inlined + [number]))
  }

  /** Start a call just taken at once, or queue it for a microtask. */
  function Schedule(e: End, job: Job, stamp: nat): End
    requires e.remote.Some?
  {
    if job.op.Invoke? && job.op.target == "" && job.op.name in e.inline then Execute(Inlined(e, job.number), job, stamp)
    else if IsWaiting(e.thread.stack) then Run(Enqueue(e, job), job.number, stamp)
    else
      var queued := Enqueue(e, job);
      queued.(thread := queued.thread.(micro := e.thread.micro + [job.number]))
  }

  function Accept(e: End, f: Frame, id: CallId, path: Path, op: Operation, args: Payload, stamp: nat): (End, bool)
    requires e.remote.Some?
  {
    var k := TakeArgs(e, op, args);
    if !Acceptable(e, id, path, op) || k.fault then (e, true)
    else
      var taken := Taken(e, f, id.number, k);
      if k.refused then (Refuse(taken, id), false)
      else
        var business := IsBusiness(e.exports, op);
        (Schedule(Begin(taken, business), Job(id.number, path, op, business), stamp), false)
  }

  /** The far end gives grants of a reference back. */
  function Returned(e: End, f: Frame, id: nat, count: nat): (End, bool) {
    if id !in e.exports.entries || count == 0 || count > MAX_SAFE || count > e.exports.entries[id].grants then (e, true)
    else (Got(e, f).(exports := TakeBack(e.exports, id, count)), false)
  }

  function Greet(e: End, f: Frame, version: nat, endpoint: nat, plugins: bool): (End, bool) {
    if e.remote.Some? || version != PROTOCOL || endpoint == e.endpoint then (e, true)
    else (Got(e, f).(remote := Some(endpoint), plugins := plugins), false)
  }

  /** Take the next frame; the second result is a fault, on which the session closes. */
  function Receive(e: End, f: Frame, stamp: nat): (End, bool) {
    if f.Hello? then Greet(e, f, f.version, f.endpoint, f.plugins)
    else if e.remote.None? then (e, true)
    else if f.Return? then Reply(e, f, f.id, f.value)
    else if f.Throw? then Reply(e, f, f.id, Payload([], true))
    else if f.Release? then Returned(e, f, f.reference, f.count)
    else Accept(e, f, f.id, f.path, f.op, f.args, stamp)
  }

  // ── What this side does ─────────────────────────────────────────

  /** What a call of this side is of: a service of the far end, or a received reference. */
  datatype Wanted = Service(target: string, name: string) | Use(record: nat, member: string)

  datatype Act =
    | Ask(want: Wanted, items: seq<Item>, encodes: bool, sound: bool, sync: bool, path: Path)
    | Answering(answer: Answer)        // the call running returns or throws
    | Micro                            // a queued microtask runs
    | Drain                            // a synchronous call drains the queue
    | Wake                             // a synchronous call was answered
    | Settle(future: nat, answer: Answer)
    | Report(index: nat)               // a settled Promise answers an await
    | Collect(record: nat)             // a proxy is collected
    | Free(record: nat)                // a proxy is released, or finalized

  /** The operation a call of `want` is sent as, when it can be made. */
  function OperationOf(m: Imports, want: Wanted): Option<Operation> {
    match want
    case Service(target, name) => Some(Invoke(target, name))
    case Use(k, member) =>
      if k >= |m.records| || m.records[k].released || !m.records[k].live then None
      else match m.records[k].kind
        case Function => Some(Call(m.records[k].id, None))
        case Object => Some(Call(m.records[k].id, Some(member)))
        case Future => Some(Await(m.records[k].id))
        case Plugin => None
  }

  function Deduped(path: Path): (r: Path)
    ensures forall id :: id in r <==> id in path
    ensures forall i, j :: 0 <= i < j < |r| ==> r[i] != r[j]
  {
    if path == [] then []
    else
      var front, last := Deduped(path[..|path| - 1]), path[|path| - 1];
      assert path == path[..|path| - 1] + [last];
      if last in front then front else front + [last]
  }

  /** The request a call sends, its arguments granted; none when they cannot be sent. */
  function Prepare(
    e: End, op: Operation, items: seq<Item>, encodes: bool, sound: bool, path: Path): (Exports, Option<Payload>) {
    if op.Await? then (e.exports, Some(Payload([], true)))
    else
      var (exports, refs) := Encode(e.exports, e.imports.records, items, encodes, Context(path, true, e.plugins));
      (exports, if refs.Some? then Some(Payload(refs.value, sound)) else None)
  }

  function OriginOf(m: Imports, want: Wanted): Path {
    if want.Use? && want.record < |m.records| && m.records[want.record].kind.Future? then m.records[want.record].origin
    else []
  }

  /** The request of a call of this side's. */
  function RequestOf(e: End, want: Wanted, op: Operation, args: Payload, path: Path): (f: Frame)
    ensures f.Request? && f.id == CallId(e.endpoint, e.next + 1) && f.op == op && f.args == args
  {
    Request(CallId(e.endpoint, e.next + 1), Deduped(path + OriginOf(e.imports, want)), op, args)
  }

  /** A call sent: it waits for its reply, on the stack when it is synchronous. */
  function Issue(e: End, exports: Exports, request: Frame, sync: bool, stamp: nat): End
    requires request.Request?
  {
    var number := e.next + 1;
    var asked := Send(e.(next := number, exports := exports, pending := e.pending + {number}), [request]);
    if sync && (request.op.Invoke? || (request.op.Call? && request.op.member.None?))
    then asked.(thread := asked.thread.(stack := asked.thread.stack + [Waiting(number, true, stamp)]))
    else asked
  }

  function AskFor(
    e: End, want: Wanted, items: seq<Item>, encodes: bool, sound: bool, sync: bool, path: Path, stamp: nat): End {
    var op := OperationOf(e.imports, want);
    if op.None? then e
    else if e.next + 1 > MAX_SAFE then e.(next := e.next + 1)
    else
      var (exports, args) := Prepare(e, op.value, items, encodes, sound, path);
      if args.None? then e.(next := e.next + 1, exports := exports)
      else Issue(e, exports, RequestOf(e, want, op.value, args.value, path), sync, stamp)
  }

  function Top(e: End): Option<Activation> {
    if e.thread.stack == [] then None else Some(e.thread.stack[|e.thread.stack| - 1])
  }

  function Pop(e: End): End
    requires e.thread.stack != []
  {
    e.(thread := e.thread.(stack := e.thread.stack[..|e.thread.stack| - 1]))
  }

  /** Code of this side runs now, in the calls of `path`. */
  predicate InCode(e: End, path: Path) {
    if e.thread.stack == [] then path == [] || path in e.thread.contexts
    else Top(e).value.Running? && path == Top(e).value.path
  }

  /** The next frame is read now: from the event loop, or by a synchronous call pumping. */
  predicate Listening(e: End) {
    Top(e).None? || (Top(e).value.Waiting? && !Top(e).value.draining)
  }

  predicate Enabled(e: End, act: Act) {
    match act
    case Ask(_, _, _, _, _, path) => e.remote.Some? && InCode(e, path)
    case Answering(_) => e.remote.Some? && Top(e).Some? && Top(e).value.Running?
    case Micro => e.remote.Some? && Top(e).None? && e.thread.micro != []
    case Drain => e.remote.Some? && Top(e).Some? && Top(e).value.Waiting? && Top(e).value.draining
    case Wake => Top(e).Some? && Top(e).value.Waiting? && !Top(e).value.draining && Top(e).value.number !in e.pending
    case Settle(id, _) => Top(e).None? && id in e.exports.futures && e.exports.futures[id].Unsettled?
    case Report(i) =>
      && e.remote.Some? && Top(e).None? && i < |e.thread.awaiting|
      && e.thread.awaiting[i].future in e.exports.futures && e.exports.futures[e.thread.awaiting[i].future].Settled?
    case Collect(k) => k < |e.imports.records|
    case Free(k) => k < |e.imports.records| && !(Top(e).Some? && Top(e).value.Waiting?)
  }

  function SetDraining(e: End, draining: bool): End
    requires Top(e).Some? && Top(e).value.Waiting?
  {
    e.(thread := e.thread.(stack := Pop(e).thread.stack + [Top(e).value.(draining := draining)]))
  }

  /** A synchronous call done: jobs still queued when nothing waits get a microtask each. */
  function Woken(e: End): End
    requires e.thread.stack != []
  {
    var popped := Pop(e);
    if IsWaiting(popped.thread.stack) then popped
    else popped.(thread := popped.thread.(micro := e.thread.micro + Numbers(e.thread.queue)))
  }

  function Numbers(queue: seq<Job>): (ns: seq<nat>)
    ensures |ns| == |queue| && forall i :: 0 <= i < |queue| ==> ns[i] == queue[i].number
  {
    seq(|queue|, i requires 0 <= i < |queue| => queue[i].number)
  }

  function Settled1(e: End, id: nat, answer: Answer): End {
    var settled := e.(exports := e.exports.(futures := e.exports.futures[id := Settled(answer)]));
    Finish(settled, id in e.exports.names && e.exports.names[id].business)
  }

  function Freed(e: End, k: nat): End {
    var (imports, releases) := GiveBack(e.imports, k);
    Send(e.(imports := imports), releases)
  }

  function Perform(e: End, act: Act, stamp: nat): End
    requires Enabled(e, act)
  {
    match act
    case Ask(want, items, encodes, sound, sync, path) => AskFor(e, want, items, encodes, sound, sync, path, stamp)
    case Answering(answer) =>
      var run := Top(e).value;
      Respond(Pop(e), run.number, run.path, run.business, answer)
    case Micro => Run(e.(thread := e.thread.(micro := e.thread.micro[1..])), e.thread.micro[0], stamp)
    case Drain => if e.thread.queue == [] then SetDraining(e, false) else Run(e, e.thread.queue[0].number, stamp)
    case Wake => Woken(e)
    case Settle(id, answer) => Settled1(e, id, answer)
    case Report(i) =>
      var a := e.thread.awaiting[i];
      Respond(e.(thread := e.thread.(awaiting := e.thread.awaiting[..i] + e.thread.awaiting[i + 1..])),
              a.number, a.path, a.business, e.exports.futures[a.future].answer)
    case Collect(k) => e.(imports := e.imports.(records := e.imports.records[k := e.imports.records[k].(live := false)]))
    case Free(k) => Freed(e, k)
  }
}
