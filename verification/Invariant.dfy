/** What one session keeps through everything it does and everything it receives, honest or not,
    until it faults. */
module Invariant {
  import opened Options
  import opened Wire
  import opened References
  import opened Endpoint
  import opened Ledger
  import opened Account

  // ── The thread ──────────────────────────────────────────────────

  ghost predicate Rising(ns: seq<nat>) {
    forall i, j :: 0 <= i < j < |ns| ==> ns[i] < ns[j]
  }

  /** A synchronous call that drained the queue pumps. */
  ghost predicate Pumping(stack: seq<Activation>) {
    exists i :: 0 <= i < |stack| && stack[i].Waiting? && !stack[i].draining
  }

  /** Jobs queue in order, each with a microtask to come, and none while a call pumps. */
  ghost predicate QueueOk(th: Thread, received: nat) {
    && Rising(Numbers(th.queue)) && Rising(th.micro)
    && (forall n <- th.micro :: n <= received)
    && (forall n <- Numbers(th.queue) :: n in th.micro)
    && (Pumping(th.stack) ==> th.queue == [])
  }

  /** What is on the stack was put there in time order, before `clock`. */
  ghost predicate Stamped(stack: seq<Activation>, clock: nat) {
    && (forall i, j :: 0 <= i < j < |stack| ==> stack[i].stamp < stack[j].stamp)
    && (forall i :: 0 <= i < |stack| ==> stack[i].stamp < clock)
  }

  /** No synchronous call waits for an `await`. */
  ghost predicate WaitsOk(e: End) {
    forall i :: 0 <= i < |e.thread.stack| && e.thread.stack[i].Waiting? ==>
      e.thread.stack[i].number <= e.next && Total(Awaits(e.thread.stack[i].number), e.log.sent) == 0
  }

  /** What waits on a Promise here is an `await` of the far end's. */
  ghost predicate AwaitsOk(th: Thread, got: seq<Frame>) {
    && (forall i :: 0 <= i < |th.queue| && th.queue[i].op.Await? ==> Total(Awaits(th.queue[i].number), got) >= 1)
    && (forall i :: 0 <= i < |th.awaiting| ==> Total(Awaits(th.awaiting[i].number), got) >= 1)
  }

  /** The greeting goes first, and nothing is done before the far end's came. */
  ghost predicate Greeted(e: End) {
    && e.log.sent != [] && e.log.sent[0] == Hello(PROTOCOL, e.endpoint, e.host)
    && (forall i :: 1 <= i < |e.log.sent| ==> !e.log.sent[i].Hello?)
    && (e.remote.Some? <==> e.log.got != [])
    && (e.remote.None? ==>
       e.thread.queue == [] && e.thread.stack == [] && e.thread.awaiting == [] && e.thread.micro == [] && e.pending == {})
  }

  /** Calls are queued in the order they were made. */
  ghost predicate Ordered(e: End) {
    Rising(e.log.queued) && forall n <- e.log.queued :: n <= e.received
  }

  ghost predicate Shaped(e: End, clock: nat) {
    && Ordered(e) && QueueOk(e.thread, e.received) && Stamped(e.thread.stack, clock)
    && WaitsOk(e) && AwaitsOk(e.thread, e.log.got) && Greeted(e)
  }

  /** The whole invariant of one session. */
  ghost predicate Sound(e: End, clock: nat) {
    && Balanced(e.exports, e.imports, e.log.sent, e.log.got)
    && Accounted(e, None)
    && Shaped(e, clock)
  }

  lemma SoundHas(e: End, clock: nat)
    requires Sound(e, clock)
    ensures Balanced(e.exports, e.imports, e.log.sent, e.log.got) && Accounted(e, None) && Shaped(e, clock)
  {}

  lemma SoundOf(e: End, clock: nat)
    requires Balanced(e.exports, e.imports, e.log.sent, e.log.got) && Accounted(e, None) && Shaped(e, clock)
    ensures Sound(e, clock)
  {}

  // ── Answering and running ───────────────────────────────────────

  lemma FinishBalanced(e: End, business: bool)
    requires Balanced(e.exports, e.imports, e.log.sent, e.log.got)
    ensures var d := Finish(e, business); Balanced(d.exports, d.imports, d.log.sent, d.log.got)
  {
    OtherTables(e.exports, Finish(e, business).exports, e.imports, e.log.sent, e.log.got);
  }

  lemma RespondBalanced(e: End, n: nat, path: Path, business: bool, answer: Answer)
    requires Balanced(e.exports, e.imports, e.log.sent, e.log.got) && e.remote.Some?
    ensures var d := Respond(e, n, path, business, answer); Balanced(d.exports, d.imports, d.log.sent, d.log.got)
  {
    var id := CallId(e.remote.value, n);
    match answer
    case Failure =>
      SendBare(e.exports, e.imports, e.log.sent, e.log.got, Throw(id));
      FinishBalanced(Send(e, [Throw(id)]), business);
    case Value(items, encodes, sound) =>
      var ctx := Context(path, business, e.plugins);
      var (y, refs) := Encode(e.exports, e.imports.records, items, encodes, ctx);
      EncodeEffect(e.exports, e.imports.records, items, encodes, ctx);
      if refs.Some? {
        var reply := Return(id, Payload(refs.value, sound));
        SendEncoded(e.exports, y, e.imports, e.log.sent, e.log.got, items, reply);
        FinishBalanced(Send(e.(exports := y), [reply]), business);
      } else {
        RefusedEncodingRestores(e.exports, e.imports.records, items, encodes, ctx);
        OtherTables(e.exports, y, e.imports, e.log.sent, e.log.got);
        SendBare(y, e.imports, e.log.sent, e.log.got, Throw(id));
        FinishBalanced(Send(e.(exports := y), [Throw(id)]), business);
      }
  }

  lemma ExecuteBalanced(e: End, job: Job, stamp: nat)
    requires Balanced(e.exports, e.imports, e.log.sent, e.log.got) && e.remote.Some?
    ensures var d := Execute(e, job, stamp); Balanced(d.exports, d.imports, d.log.sent, d.log.got)
  {
    var path := job.path + [CallId(e.remote.value, job.number)];
    var entered := e.(thread := e.thread.(contexts := e.thread.contexts + {path}));
    if job.op.Await? {
      if job.op.reference in e.exports.futures && e.exports.futures[job.op.reference].Settled? {
        RespondBalanced(entered, job.number, path, job.business, e.exports.futures[job.op.reference].answer);
      } else if Related(e, job.path) {
        RespondBalanced(entered, job.number, path, job.business, Failure);
      }
    }
  }

  /** Answering leaves the thread, and sends one frame that asks nothing. */
  lemma RespondShape(e: End, n: nat, path: Path, business: bool, answer: Answer, clock: nat)
    requires Shaped(e, clock) && e.remote.Some?
    ensures Shaped(Respond(e, n, path, business, answer), clock)
  {
    var d := Respond(e, n, path, business, answer);
    var f := d.log.sent[|d.log.sent| - 1];
    assert d.log.sent == e.log.sent + [f] && !f.Request? && !f.Hello?;
    forall m: nat ensures Total(Awaits(m), d.log.sent) == Total(Awaits(m), e.log.sent) {
      TotalOne(Awaits(m), e.log.sent, f);
    }
  }

  lemma PushedShape(e: End, entry: Activation, clock: nat)
    requires Shaped(e, clock) && entry.stamp == clock && e.remote.Some?
    requires entry.Waiting? ==> entry.draining && entry.number <= e.next && Total(Awaits(entry.number), e.log.sent) == 0
    ensures Shaped(e.(thread := e.thread.(stack := e.thread.stack + [entry])), clock + 1)
  {
    var stack := e.thread.stack + [entry];
    if Pumping(stack) {
      var i :| 0 <= i < |stack| && stack[i].Waiting? && !stack[i].draining;
      assert e.thread.stack[i].Waiting? && !e.thread.stack[i].draining;
    }
  }

  lemma StampedLater(e: End, clock: nat)
    requires Shaped(e, clock)
    ensures Shaped(e, clock + 1)
  {}

  lemma ExecuteShape(e: End, job: Job, stamp: nat)
    requires Shaped(e, stamp) && e.remote.Some?
    requires job.op.Await? ==> Total(Awaits(job.number), e.log.got) >= 1
    ensures Shaped(Execute(e, job, stamp), stamp + 1)
  {
    var path := job.path + [CallId(e.remote.value, job.number)];
    var entered := e.(thread := e.thread.(contexts := e.thread.contexts + {path}));
    assert Shaped(entered, stamp);
    if job.op.Await? {
      if job.op.reference in e.exports.futures && e.exports.futures[job.op.reference].Settled? {
        RespondShape(entered, job.number, path, job.business, e.exports.futures[job.op.reference].answer, stamp);
      } else if Related(e, job.path) {
        RespondShape(entered, job.number, path, job.business, Failure, stamp);
      }
    } else {
      PushedShape(entered, Running(job.number, path, job.business, stamp), stamp);
    }
    StampedLater(entered, stamp);
  }

  /** A sound session, but for a call in hand. */
  ghost predicate SoundBut(e: End, c: Case, clock: nat) {
    && Balanced(e.exports, e.imports, e.log.sent, e.log.got)
    && Accounted(e, Some(c))
    && Shaped(e, clock)
  }

  lemma RespondSound(e: End, c: Case, path: Path, answer: Answer, clock: nat)
    requires SoundBut(e, c, clock) && e.remote.Some?
    ensures Sound(Respond(e, c.number, path, c.business, answer), clock)
  {
    RespondBalanced(e, c.number, path, c.business, answer);
    RespondKeeps(e, c, path, answer);
    RespondShape(e, c.number, path, c.business, answer, clock);
  }

  lemma ExecuteSound(e: End, job: Job, stamp: nat)
    requires SoundBut(e, Case(job.number, job.business), stamp) && e.remote.Some?
    requires job.op.Await? ==> Total(Awaits(job.number), e.log.got) >= 1
    ensures Sound(Execute(e, job, stamp), stamp + 1)
  {
    ExecuteBalanced(e, job, stamp);
    ExecuteKeeps(e, job, stamp);
    ExecuteShape(e, job, stamp);
  }

  lemma FirstTakenShape(e: End, clock: nat)
    requires Shaped(e, clock) && e.thread.queue != []
    ensures Shaped(FirstTaken(e), clock)
  {
    var q := e.thread.queue;
    assert Numbers(q[1..]) == Numbers(q)[1..];
  }

  /** The first job queued runs. */
  lemma RunSound(e: End, stamp: nat)
    requires Sound(e, stamp) && e.remote.Some? && e.thread.queue != []
    ensures Sound(Run(e, e.thread.queue[0].number, stamp), stamp + 1)
  {
    RunFirst(e, stamp);
    FirstTakenKeeps(e);
    FirstTakenShape(e, stamp);
    ExecuteSound(FirstTaken(e), e.thread.queue[0], stamp);
  }
}
