/** The calls of one session: each call of the far end's is taken once, started once and
    answered once; each call of this side's has one reply. Whatever the far end sends. */
module Account {
  import opened Options
  import opened Wire
  import opened References
  import opened Endpoint

  // ── Calls of the far end's in progress ──────────────────────────

  /** One of them: its number, and whether it is business. */
  datatype Case = Case(number: nat, business: bool)

  function QueueCases(queue: seq<Job>): (cs: seq<Case>)
    ensures |cs| == |queue|
  {
    seq(|queue|, i requires 0 <= i < |queue| => Case(queue[i].number, queue[i].business))
  }

  function AwaitCases(awaiting: seq<Awaited>): (cs: seq<Case>)
    ensures |cs| == |awaiting|
  {
    seq(|awaiting|, i requires 0 <= i < |awaiting| => Case(awaiting[i].number, awaiting[i].business))
  }

  function StackCases(stack: seq<Activation>): seq<Case> {
    if stack == [] then []
    else
      var last := stack[|stack| - 1];
      StackCases(stack[..|stack| - 1]) + if last.Running? then [Case(last.number, last.business)] else []
  }

  function Cases(th: Thread): seq<Case> {
    QueueCases(th.queue) + StackCases(th.stack) + AwaitCases(th.awaiting)
  }

  /** How many of `cs` are of call `n`, and how many are business. */
  function Of(cs: seq<Case>, n: nat): nat {
    if cs == [] then 0 else Of(cs[..|cs| - 1], n) + if cs[|cs| - 1].number == n then 1 else 0
  }

  function Businesses(cs: seq<Case>): nat {
    if cs == [] then 0 else Businesses(cs[..|cs| - 1]) + if cs[|cs| - 1].business then 1 else 0
  }

  lemma {:induction false} CasesSplit(xs: seq<Case>, ys: seq<Case>, n: nat)
    ensures Of(xs + ys, n) == Of(xs, n) + Of(ys, n)
    ensures Businesses(xs + ys) == Businesses(xs) + Businesses(ys)
    decreases |ys|
  {
    if ys == [] {
      assert xs + ys == xs;
    } else {
      CasesSplit(xs, ys[..|ys| - 1], n);
      assert (xs + ys)[..|xs + ys| - 1] == xs + ys[..|ys| - 1];
    }
  }

  lemma OneCase(c: Case, n: nat)
    ensures Of([c], n) == if c.number == n then 1 else 0
    ensures Businesses([c]) == if c.business then 1 else 0
  {
    assert [c][..0] == [];
  }

  /** `ys` is `xs` with one case more. */
  ghost predicate OneMore(xs: seq<Case>, ys: seq<Case>, c: Case) {
    && Businesses(ys) == Businesses(xs) + (if c.business then 1 else 0)
    && forall n: nat :: Of(ys, n) == Of(xs, n) + if c.number == n then 1 else 0
  }

  lemma Inserted(a: seq<Case>, b: seq<Case>, c: Case)
    ensures OneMore(a + b, a + [c] + b, c)
  {
    InsertedAt(a, b, c, 0);
    forall n: nat ensures Of(a + [c] + b, n) == Of(a + b, n) + if c.number == n then 1 else 0 {
      InsertedAt(a, b, c, n);
    }
  }

  lemma InsertedAt(a: seq<Case>, b: seq<Case>, c: Case, n: nat)
    ensures Of(a + [c] + b, n) == Of(a + b, n) + if c.number == n then 1 else 0
    ensures Businesses(a + [c] + b) == Businesses(a + b) + if c.business then 1 else 0
  {
    CasesSplit(a, b, n); CasesSplit(a + [c], b, n); CasesSplit(a, [c], n); OneCase(c, n);
  }

  lemma PushedRunning(th: Thread, run: Activation)
    requires run.Running?
    ensures OneMore(Cases(th), Cases(th.(stack := th.stack + [run])), Case(run.number, run.business))
  {
    var c := Case(run.number, run.business);
    assert (th.stack + [run])[..|th.stack|] == th.stack;
    Inserted(QueueCases(th.queue) + StackCases(th.stack), AwaitCases(th.awaiting), c);
    assert Cases(th.(stack := th.stack + [run])) ==
      QueueCases(th.queue) + StackCases(th.stack) + [c] + AwaitCases(th.awaiting);
  }

  lemma PushedWaiting(th: Thread, wait: Activation)
    requires wait.Waiting?
    ensures Cases(th.(stack := th.stack + [wait])) == Cases(th)
  {
    assert (th.stack + [wait])[..|th.stack|] == th.stack;
  }

  lemma Queued(th: Thread, job: Job)
    ensures OneMore(Cases(th), Cases(th.(queue := th.queue + [job])), Case(job.number, job.business))
  {
    var c := Case(job.number, job.business);
    Inserted(QueueCases(th.queue), StackCases(th.stack) + AwaitCases(th.awaiting), c);
    assert Cases(th) == QueueCases(th.queue) + (StackCases(th.stack) + AwaitCases(th.awaiting));
    assert Cases(th.(queue := th.queue + [job])) ==
      QueueCases(th.queue) + [c] + (StackCases(th.stack) + AwaitCases(th.awaiting));
  }

  lemma Dequeued(th: Thread, i: nat)
    requires i < |th.queue|
    ensures OneMore(Cases(th.(queue := th.queue[..i] + th.queue[i + 1..])), Cases(th),
      Case(th.queue[i].number, th.queue[i].business))
  {
    var c, rest := Case(th.queue[i].number, th.queue[i].business), StackCases(th.stack) + AwaitCases(th.awaiting);
    var a, b := QueueCases(th.queue[..i]), QueueCases(th.queue[i + 1..]);
    Inserted(a, b + rest, c);
    assert QueueCases(th.queue) == a + [c] + b;
    assert Cases(th) == a + [c] + (b + rest);
    assert Cases(th.(queue := th.queue[..i] + th.queue[i + 1..])) == a + (b + rest);
  }

  lemma Registered(th: Thread, a: Awaited)
    ensures OneMore(Cases(th), Cases(th.(awaiting := th.awaiting + [a])), Case(a.number, a.business))
  {
    var c := Case(a.number, a.business);
    Inserted(Cases(th), [], c);
    assert Cases(th) + [] == Cases(th) && Cases(th) + [c] + [] == Cases(th) + [c];
    assert Cases(th.(awaiting := th.awaiting + [a])) == Cases(th) + [c];
  }

  lemma Unregistered(th: Thread, i: nat)
    requires i < |th.awaiting|
    ensures OneMore(Cases(th.(awaiting := th.awaiting[..i] + th.awaiting[i + 1..])), Cases(th),
      Case(th.awaiting[i].number, th.awaiting[i].business))
  {
    var c, rest := Case(th.awaiting[i].number, th.awaiting[i].business), QueueCases(th.queue) + StackCases(th.stack);
    var a, b := AwaitCases(th.awaiting[..i]), AwaitCases(th.awaiting[i + 1..]);
    Inserted(rest + a, b, c);
    assert AwaitCases(th.awaiting) == a + [c] + b;
    assert Cases(th) == rest + a + [c] + b;
    assert Cases(th.(awaiting := th.awaiting[..i] + th.awaiting[i + 1..])) == rest + a + b;
  }

  lemma Popped(th: Thread)
    requires th.stack != []
    ensures var last := th.stack[|th.stack| - 1]; var popped := th.(stack := th.stack[..|th.stack| - 1]);
      if last.Running? then OneMore(Cases(popped), Cases(th), Case(last.number, last.business))
      else Cases(popped) == Cases(th)
  {
    var last, popped := th.stack[|th.stack| - 1], th.(stack := th.stack[..|th.stack| - 1]);
    assert th == popped.(stack := popped.stack + [last]);
    if last.Running? { PushedRunning(popped, last); } else { PushedWaiting(popped, last); }
  }

  // ── The invariant ───────────────────────────────────────────────

  /** A call taken out of the queue, the stack or the wire, that is being started or answered. */
  function InHand(hand: Option<Case>, n: nat): nat {
    if hand.Some? && hand.value.number == n then 1 else 0
  }

  function BusinessInHand(hand: Option<Case>): nat {
    if hand.Some? && hand.value.business then 1 else 0
  }

  /** Every call received is answered once, or in progress once. */
  ghost predicate AnsweredOnce(th: Thread, hand: Option<Case>, sent: seq<Frame>, got: seq<Frame>) {
    forall n: nat :: Total(Answered(n), sent) + Of(Cases(th), n) + InHand(hand, n) == Total(Asked(n), got)
  }

  /** Every call of this side's has its reply, or waits for it. */
  ghost predicate RepliedOnce(pending: set<nat>, sent: seq<Frame>, got: seq<Frame>) {
    forall n: nat :: (if n in pending then 1 else 0) + Total(Answered(n), got) == Total(Asked(n), sent)
  }

  /** `active` counts the business calls in progress and the business Promises not settled. */
  ghost predicate Active(x: Exports, th: Thread, hand: Option<Case>) {
    Calls(x) == Businesses(Cases(th)) + BusinessInHand(hand)
  }

  /** The requests of a log have rising numbers, up to `last`. */
  ghost predicate RisingAsks(log: seq<Frame>, last: nat) {
    && LastAsked(log) <= last
    && (forall i :: 0 <= i < |log| && log[i].Request? ==> LastAsked(log[..i]) < log[i].id.number <= MAX_SAFE)
    && (forall n: nat :: n > last ==> Total(Asked(n), log) == 0)
    && (forall n: nat :: Total(Asked(n), log) <= 1)
  }

  /** Requests are this side's own, and replies go to the far end's calls. */
  ghost predicate Addressed(e: End) {
    forall i :: 0 <= i < |e.log.sent| ==>
      && (e.log.sent[i].Request? ==> e.log.sent[i].id.endpoint == e.endpoint)
      && (e.log.sent[i].Return? || e.log.sent[i].Throw? ==> e.remote == Some(e.log.sent[i].id.endpoint))
  }

  /** Calls start in the order they came. */
  ghost predicate InOrder(e: End) {
    e.log.started + Numbers(e.thread.queue) == e.log.queued
  }

  ghost predicate Accounted(e: End, hand: Option<Case>) {
    && AnsweredOnce(e.thread, hand, e.log.sent, e.log.got)
    && RepliedOnce(e.pending, e.log.sent, e.log.got)
    && Active(e.exports, e.thread, hand)
    && e.received == LastAsked(e.log.got) && RisingAsks(e.log.got, e.received)
    && RisingAsks(e.log.sent, e.next)
    && Addressed(e) && InOrder(e)
  }

  // ── What one frame changes ──────────────────────────────────────

  lemma RisingOne(log: seq<Frame>, last: nat, f: Frame, later: nat)
    requires RisingAsks(log, last) && last <= later
    requires f.Request? ==> last < f.id.number <= MAX_SAFE && f.id.number <= later
    ensures RisingAsks(log + [f], later)
  {
    LastAskedOne(log, f);
    forall i | 0 <= i < |log + [f]| && (log + [f])[i].Request?
      ensures LastAsked((log + [f])[..i]) < (log + [f])[i].id.number <= MAX_SAFE
    {
      assert (log + [f])[..i] == log[..i];
      if i == |log| { assert log[..i] == log; }
    }
    forall n: nat ensures Total(Asked(n), log + [f]) <= 1 && (n > later ==> Total(Asked(n), log + [f]) == 0) {
      TotalOne(Asked(n), log, f);
      assert n > last ==> Total(Asked(n), log) == 0;
    }
  }

  lemma {:induction false} RisingReleases(log: seq<Frame>, last: nat, frames: seq<Frame>)
    requires RisingAsks(log, last) && forall i :: 0 <= i < |frames| ==> frames[i].Release?
    ensures RisingAsks(log + frames, last)
    decreases |frames|
  {
    if frames == [] {
      assert log + frames == log;
    } else {
      var front := frames[..|frames| - 1];
      RisingReleases(log, last, front);
      assert log + frames == (log + front) + [frames[|frames| - 1]];
      RisingOne(log + front, last, frames[|frames| - 1], last);
    }
  }

  lemma {:induction false} ReleasesAskNothing(frames: seq<Frame>, n: nat)
    requires forall i :: 0 <= i < |frames| ==> frames[i].Release?
    ensures Total(Asked(n), frames) == 0 && Total(Answered(n), frames) == 0 && Total(Awaits(n), frames) == 0
    decreases |frames|
  {
    if frames != [] { ReleasesAskNothing(frames[..|frames| - 1], n); }
  }

  /** Releases sent change nothing here. */
  lemma SentReleases(e: End, hand: Option<Case>, frames: seq<Frame>)
    requires Accounted(e, hand) && forall i :: 0 <= i < |frames| ==> frames[i].Release?
    ensures Accounted(Send(e, frames), hand)
  {
    RisingReleases(e.log.sent, e.next, frames);
    forall n: nat ensures Total(Answered(n), e.log.sent + frames) == Total(Answered(n), e.log.sent)
        && Total(Asked(n), e.log.sent + frames) == Total(Asked(n), e.log.sent) {
      TotalSplit(Answered(n), e.log.sent, frames);
      TotalSplit(Asked(n), e.log.sent, frames);
      ReleasesAskNothing(frames, n);
    }
  }

  /** A reply sent answers the call in hand. */
  lemma SentReply(e: End, c: Case, f: Frame)
    requires Accounted(e, Some(c)) && e.remote.Some?
    requires (f.Return? || f.Throw?) && f.id == CallId(e.remote.value, c.number)
    ensures Accounted(Finish(Send(e, [f]), c.business), None)
  {
    var sent, d := e.log.sent, Finish(Send(e, [f]), c.business);
    RisingOne(sent, e.next, f, e.next);
    forall n: nat ensures Total(Asked(n), sent + [f]) == Total(Asked(n), sent)
        && Total(Answered(n), sent + [f]) + Of(Cases(d.thread), n) == Total(Asked(n), e.log.got) {
      TotalOne(Answered(n), sent, f);
      TotalOne(Asked(n), sent, f);
      assert Total(Answered(n), sent) + Of(Cases(e.thread), n) + InHand(Some(c), n) == Total(Asked(n), e.log.got);
    }
    assert Unfinished(d.exports) == Unfinished(e.exports);
  }

  lemma RespondKeeps(e: End, c: Case, path: Path, answer: Answer)
    requires Accounted(e, Some(c)) && e.remote.Some? && ExportsOk(e.exports)
    ensures Accounted(Respond(e, c.number, path, c.business, answer), None)
  {
    match answer
    case Failure => SentReply(e, c, Throw(CallId(e.remote.value, c.number)));
    case Value(items, encodes, sound) =>
      var ctx := Context(path, c.business, e.plugins);
      EncodeEffect(e.exports, e.imports.records, items, encodes, ctx);
      var (exports, refs) := Encode(e.exports, e.imports.records, items, encodes, ctx);
      var id := CallId(e.remote.value, c.number);
      SentReply(e.(exports := exports), c, if refs.Some? then Return(id, Payload(refs.value, sound)) else Throw(id));
  }

  /** A call in hand put on the thread, or taken from it. */
  lemma Placed(e: End, th: Thread, c: Case)
    requires Accounted(e, Some(c)) && OneMore(Cases(e.thread), Cases(th), c) && th.queue == e.thread.queue
    ensures Accounted(e.(thread := th), None)
  {
    forall n: nat ensures Total(Answered(n), e.log.sent) + Of(Cases(th), n) == Total(Asked(n), e.log.got) {
      assert Total(Answered(n), e.log.sent) + Of(Cases(e.thread), n) + InHand(Some(c), n) == Total(Asked(n), e.log.got);
    }
  }

  lemma Picked(e: End, th: Thread, c: Case)
    requires Accounted(e, None) && OneMore(Cases(th), Cases(e.thread), c) && th.queue == e.thread.queue
    ensures Accounted(e.(thread := th), Some(c))
  {
    InHandOf(e, th, c);
  }

  /** Changes that touch no case. */
  lemma SameCases(e: End, th: Thread, hand: Option<Case>)
    requires Accounted(e, hand) && Cases(th) == Cases(e.thread) && th.queue == e.thread.queue
    ensures Accounted(e.(thread := th), hand)
  {}

  lemma ExecuteKeeps(e: End, job: Job, stamp: nat)
    requires Accounted(e, Some(Case(job.number, job.business))) && e.remote.Some? && ExportsOk(e.exports)
    ensures Accounted(Execute(e, job, stamp), None)
  {
    var c, path := Case(job.number, job.business), job.path + [CallId(e.remote.value, job.number)];
    var entered := e.(thread := e.thread.(contexts := e.thread.contexts + {path}));
    SameCases(e, entered.thread, Some(c));
    if job.op.Await? {
      if job.op.reference in e.exports.futures && e.exports.futures[job.op.reference].Settled? {
        RespondKeeps(entered, c, path, e.exports.futures[job.op.reference].answer);
      } else if Related(e, job.path) {
        RespondKeeps(entered, c, path, Failure);
      } else {
        var a := Awaited(job.number, path, job.op.reference, job.business);
        Registered(entered.thread, a);
        Placed(entered, entered.thread.(awaiting := entered.thread.awaiting + [a]), c);
      }
    } else {
      var run := Running(job.number, path, job.business, stamp);
      PushedRunning(entered.thread, run);
      Placed(entered, entered.thread.(stack := entered.thread.stack + [run]), c);
    }
  }

  /** The first job of the queue, in hand. */
  function FirstTaken(e: End): End
    requires e.thread.queue != []
  {
    e.(thread := e.thread.(queue := e.thread.queue[1..]),
      log := e.log.(started := e.log.started + [e.thread.queue[0].number]))
  }

  lemma DequeuedFirst(th: Thread)
    requires th.queue != []
    ensures OneMore(Cases(th.(queue := th.queue[1..])), Cases(th), Case(th.queue[0].number, th.queue[0].business))
    ensures Numbers(th.queue) == [th.queue[0].number] + Numbers(th.queue[1..])
  {
    assert th.queue[..0] + th.queue[1..] == th.queue[1..];
    NumbersFirst(th.queue);
    hide Cases, OneMore, Numbers;
    Dequeued(th, 0);
  }

  lemma NumbersFirst(queue: seq<Job>)
    requires queue != []
    ensures Numbers(queue) == [queue[0].number] + Numbers(queue[1..])
  {}

  lemma FirstTakenKeeps(e: End)
    requires Accounted(e, None) && e.thread.queue != []
    ensures Accounted(FirstTaken(e), Some(Case(e.thread.queue[0].number, e.thread.queue[0].business)))
  {
    var job, th := e.thread.queue[0], FirstTaken(e).thread;
    DequeuedFirst(e.thread);
    InHandOf(e, th, Case(job.number, job.business));
    FirstInOrder(e);
  }

  lemma FirstInOrder(e: End)
    requires InOrder(e) && e.thread.queue != []
    ensures InOrder(FirstTaken(e))
  {
    DequeuedFirst(e.thread);
    assert e.log.started + [e.thread.queue[0].number] + Numbers(e.thread.queue[1..]) ==
      e.log.started + Numbers(e.thread.queue);
  }

  lemma InHandOf(e: End, th: Thread, c: Case)
    requires AnsweredOnce(e.thread, None, e.log.sent, e.log.got) && Active(e.exports, e.thread, None)
    requires OneMore(Cases(th), Cases(e.thread), c)
    ensures AnsweredOnce(th, Some(c), e.log.sent, e.log.got) && Active(e.exports, th, Some(c))
  {
    forall n: nat
      ensures Total(Answered(n), e.log.sent) + Of(Cases(th), n) + InHand(Some(c), n) == Total(Asked(n), e.log.got)
    {
      assert Total(Answered(n), e.log.sent) + Of(Cases(e.thread), n) == Total(Asked(n), e.log.got);
    }
  }

  lemma RunFirst(e: End, stamp: nat)
    requires e.remote.Some? && e.thread.queue != []
    ensures Run(e, e.thread.queue[0].number, stamp) == Execute(FirstTaken(e), e.thread.queue[0], stamp)
  {
    assert e.thread.queue[..0] + e.thread.queue[1..] == e.thread.queue[1..];
  }

  lemma EnqueueKeeps(e: End, job: Job)
    requires Accounted(e, Some(Case(job.number, job.business)))
    ensures Accounted(Enqueue(e, job), None)
  {
    var c, d := Case(job.number, job.business), Enqueue(e, job);
    Queued(e.thread, job);
    forall n: nat ensures Total(Answered(n), e.log.sent) + Of(Cases(d.thread), n) == Total(Asked(n), e.log.got) {
      assert Total(Answered(n), e.log.sent) + Of(Cases(e.thread), n) + InHand(Some(c), n) == Total(Asked(n), e.log.got);
    }
    assert Numbers(d.thread.queue) == Numbers(e.thread.queue) + [job.number];
  }

  // ── What a frame received changes ───────────────────────────────

  /** A request received puts its call in hand. */
  lemma GotRequest(e: End, f: Frame)
    requires Accounted(e, None) && f.Request? && e.received < f.id.number <= MAX_SAFE
    ensures Accounted(Got(e, f).(received := f.id.number), Some(Case(f.id.number, false)))
  {
    var got, c := e.log.got, Case(f.id.number, false);
    LastAskedOne(got, f);
    RisingOne(got, e.received, f, f.id.number);
    forall n: nat ensures Total(Answered(n), got + [f]) == Total(Answered(n), got)
        && Total(Answered(n), e.log.sent) + Of(Cases(e.thread), n) + InHand(Some(c), n) == Total(Asked(n), got + [f]) {
      TotalOne(Answered(n), got, f);
      TotalOne(Asked(n), got, f);
      assert Total(Answered(n), e.log.sent) + Of(Cases(e.thread), n) == Total(Asked(n), got);
    }
  }

  lemma BeginKeeps(e: End, n: nat, business: bool)
    requires Accounted(e, Some(Case(n, false)))
    ensures Accounted(Begin(e, business), Some(Case(n, business)))
  {
    var d := Begin(e, business);
    assert Unfinished(d.exports) == Unfinished(e.exports);
    forall m: nat
      ensures Total(Answered(m), e.log.sent) + Of(Cases(e.thread), m) + InHand(Some(Case(n, business)), m) ==
        Total(Asked(m), e.log.got)
    {
      assert Total(Answered(m), e.log.sent) + Of(Cases(e.thread), m) + InHand(Some(Case(n, false)), m) ==
        Total(Asked(m), e.log.got);
    }
  }

  /** A reply received ends the call that waits for it. */
  lemma GotReply(e: End, f: Frame)
    requires Accounted(e, None) && (f.Return? || f.Throw?) && f.id.number in e.pending
    ensures Accounted(Got(e, f).(pending := e.pending - {f.id.number}), None)
  {
    var got := e.log.got;
    LastAskedOne(got, f);
    RisingOne(got, e.received, f, e.received);
    forall n: nat ensures Total(Asked(n), got + [f]) == Total(Asked(n), got)
        && (if n in e.pending - {f.id.number} then 1 else 0) + Total(Answered(n), got + [f]) ==
           Total(Asked(n), e.log.sent) {
      TotalOne(Answered(n), got, f);
      TotalOne(Asked(n), got, f);
      assert (if n in e.pending then 1 else 0) + Total(Answered(n), got) == Total(Asked(n), e.log.sent);
    }
  }

  /** A frame received that is no call and no reply. */
  lemma GotOther(e: End, f: Frame)
    requires Accounted(e, None) && (f.Hello? || f.Release?)
    ensures Accounted(Got(e, f), None)
  {
    var got := e.log.got;
    LastAskedOne(got, f);
    RisingOne(got, e.received, f, e.received);
    forall n: nat
      ensures Total(Asked(n), got + [f]) == Total(Asked(n), got) &&
        Total(Answered(n), got + [f]) == Total(Answered(n), got)
    {
      TotalOne(Answered(n), got, f);
      TotalOne(Asked(n), got, f);
    }
  }

  /** A call made waits for its reply. */
  lemma SentRequest(e: End, f: Frame)
    requires Accounted(e, None) && f.Request? && f.id == CallId(e.endpoint, e.next + 1) && e.next + 1 <= MAX_SAFE
    ensures Accounted(Send(e.(next := e.next + 1, pending := e.pending + {e.next + 1}), [f]), None)
  {
    hide Total, RisingAsks, Cases, Calls, Businesses;
    var sent, number := e.log.sent, e.next + 1;
    RisingOne(sent, e.next, f, number);
    forall n: nat
      ensures Total(Answered(n), sent + [f]) == Total(Answered(n), sent)
      ensures (if n in e.pending + {number} then 1 else 0) + Total(Answered(n), e.log.got) == Total(Asked(n), sent + [f])
    {
      WaitsMore(e, f, n);
    }
  }

  lemma WaitsMore(e: End, f: Frame, n: nat)
    requires Accounted(e, None) && f.Request? && f.id.number == e.next + 1
    ensures Total(Answered(n), e.log.sent + [f]) == Total(Answered(n), e.log.sent)
    ensures (if n in e.pending + {e.next + 1} then 1 else 0) + Total(Answered(n), e.log.got) ==
      Total(Asked(n), e.log.sent + [f])
  {
    TotalOne(Answered(n), e.log.sent, f);
    TotalOne(Asked(n), e.log.sent, f);
    assert (if n in e.pending then 1 else 0) + Total(Answered(n), e.log.got) == Total(Asked(n), e.log.sent);
    assert Total(Asked(e.next + 1), e.log.sent) == 0;
  }
}
