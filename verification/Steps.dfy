/** Every step of a session keeps its invariant. */
module Steps {
  import opened Options
  import opened Wire
  import opened References
  import opened Endpoint
  import opened Ledger
  import opened Account
  import opened Invariant

  // ── Receiving ───────────────────────────────────────────────────

  /** A frame received, and releases sent: the thread is as it was. */
  lemma GotShape(e: End, f: Frame, releases: seq<Frame>, d: End, clock: nat)
    requires Shaped(e, clock) && e.remote.Some? && OnlyReleases(releases)
    requires d == Send(Got(e, f), releases).(received := d.received, imports := d.imports, exports := d.exports,
      pending := d.pending)
    requires d.received >= e.received
    ensures Shaped(d, clock)
  {
    forall n: nat
      ensures Total(Awaits(n), d.log.sent) == Total(Awaits(n), e.log.sent) &&
        Total(Awaits(n), d.log.got) >= Total(Awaits(n), e.log.got)
    {
      TotalSplit(Awaits(n), e.log.sent, releases);
      ReleasesAskNothing(releases, n);
      TotalOne(Awaits(n), e.log.got, f);
    }
    assert d.log.sent[0] == e.log.sent[0];
  }

  /** The value a reply carries. */
  function PayloadOf(f: Frame): Payload {
    if f.Return? then f.value else Payload([], true)
  }

  lemma ReplyBalanced(e: End, f: Frame)
    requires Balanced(e.exports, e.imports, e.log.sent, e.log.got) && (f.Return? || f.Throw?)
    requires !Reply(e, f, f.id, PayloadOf(f)).1
    ensures var d := Reply(e, f, f.id, PayloadOf(f)).0; Balanced(d.exports, d.imports, d.log.sent, d.log.got)
  {
    if f.Return? {
      GotPayload(e.exports, e.imports, e.log.sent, e.log.got, f, e.host, f.value);
    } else {
      GotBare(e.exports, e.imports, e.log.sent, e.log.got, f);
      assert e.log.sent + [] == e.log.sent;
    }
  }

  lemma ReplyKeeps(e: End, f: Frame)
    requires Accounted(e, None) && ImportsOk(e.imports) && (f.Return? || f.Throw?)
    requires !Reply(e, f, f.id, PayloadOf(f)).1
    ensures Accounted(Reply(e, f, f.id, PayloadOf(f)).0, None)
  {
    TakeReleases(e, PayloadOf(f));
    GotReply(e, f);
    SentReleases(Got(e, f).(pending := e.pending - {f.id.number}), None,
      Take(e.exports, e.imports, PayloadOf(f), e.host).releases);
  }

  lemma ReplySound(e: End, f: Frame, stamp: nat)
    requires Sound(e, stamp) && e.remote.Some? && (f.Return? || f.Throw?)
    requires !Reply(e, f, f.id, PayloadOf(f)).1
    ensures Sound(Reply(e, f, f.id, PayloadOf(f)).0, stamp)
  {
    ReplyBalanced(e, f);
    ReplyKeeps(e, f);
    TakeReleases(e, PayloadOf(f));
    GotShape(e, f, Take(e.exports, e.imports, PayloadOf(f), e.host).releases, Reply(e, f, f.id, PayloadOf(f)).0, stamp);
  }

  lemma TakeReleases(e: End, payload: Payload)
    requires ImportsOk(e.imports)
    ensures var k := Take(e.exports, e.imports, payload, e.host); !k.fault ==> OnlyReleases(k.releases)
  {
    var d := Decode(e.exports, e.imports, payload.refs, e.host);
    if !d.fault {
      DecodeEffect(e.exports, e.imports, payload.refs, e.host);
      DismissEffect(d.imports, d.imported);
    }
  }

  lemma ReturnedSound(e: End, f: Frame, stamp: nat)
    requires Sound(e, stamp) && e.remote.Some? && f.Release? && !Returned(e, f, f.reference, f.count).1
    ensures Sound(Returned(e, f, f.reference, f.count).0, stamp)
  {
    hide *;
    var d := Returned(e, f, f.reference, f.count).0;
    SoundHas(e, stamp);
    ReturnedIs(e, f);
    GotOther(e, f);
    GotShape(e, f, [], d, stamp);
    ReturnedAccounted(Got(e, f), d);
    SoundOf(d, stamp);
  }

  lemma ReturnedIs(e: End, f: Frame)
    requires Balanced(e.exports, e.imports, e.log.sent, e.log.got)
    requires f.Release? && !Returned(e, f, f.reference, f.count).1
    ensures var d := Returned(e, f, f.reference, f.count).0;
      && d == Got(e, f).(exports := d.exports) && Calls(d.exports) == Calls(Got(e, f).exports)
      && Balanced(d.exports, d.imports, d.log.sent, d.log.got) && OnlyReleases([]) && d.received >= e.received
      && d == Send(Got(e, f), []).(received := d.received, imports := d.imports, exports := d.exports, pending := d.pending)
  {
    GotRelease(e.exports, e.imports, e.log.sent, e.log.got, f);
    assert ExportsOk(e.exports);
    TakeBackEffect(e.exports, f.reference, f.count);
    assert e.log.sent + [] == e.log.sent;
    hide Balanced, ExportsOk;
  }

  lemma ReturnedAccounted(e: End, d: End)
    requires Accounted(e, None) && d == e.(exports := d.exports) && Calls(d.exports) == Calls(e.exports)
    ensures Accounted(d, None)
  {
    hide AnsweredOnce, RepliedOnce, RisingAsks, Calls;
  }

  lemma GreetSound(e: End, f: Frame, stamp: nat)
    requires Sound(e, stamp) && f.Hello? && !Greet(e, f, f.version, f.endpoint, f.plugins).1
    ensures Sound(Greet(e, f, f.version, f.endpoint, f.plugins).0, stamp)
  {
    GotBare(e.exports, e.imports, e.log.sent, e.log.got, f);
    GotOther(e, f);
    GreetKeeps(Got(e, f), f.endpoint, f.plugins);
  }

  lemma GreetKeeps(e: End, endpoint: nat, plugins: bool)
    requires Accounted(e, None) && e.remote.None?
    ensures Accounted(e.(remote := Some(endpoint), plugins := plugins), None)
  {}

  lemma TakenBalanced(e: End, f: Frame, k: Taking)
    requires Balanced(e.exports, e.imports, e.log.sent, e.log.got) && f.Request?
    requires k == TakeArgs(e, f.op, f.args) && !k.fault
    ensures var d := Taken(e, f, f.id.number, k);
      Balanced(d.exports, d.imports, d.log.sent, d.log.got) && OnlyReleases(k.releases)
  {
    if f.op.Await? || f.op.Get? {
      GotBare(e.exports, e.imports, e.log.sent, e.log.got, f);
      assert e.log.sent + [] == e.log.sent;
    } else {
      GotPayload(e.exports, e.imports, e.log.sent, e.log.got, f, e.host, f.args);
      TakeReleases(e, f.args);
    }
  }

  lemma TakenKeeps(e: End, f: Frame, k: Taking)
    requires Accounted(e, None) && f.Request? && OnlyReleases(k.releases) && e.received < f.id.number <= MAX_SAFE
    ensures Accounted(Taken(e, f, f.id.number, k), Some(Case(f.id.number, false)))
  {
    GotRequest(e, f);
    SentReleases(Got(e, f).(received := f.id.number), Some(Case(f.id.number, false)), k.releases);
  }

  /** A call taken: it is in hand, and its arguments are on the books. */
  lemma TakenSound(e: End, f: Frame, k: Taking, stamp: nat)
    requires Sound(e, stamp) && e.remote.Some? && f.Request?
    requires k == TakeArgs(e, f.op, f.args) && !k.fault && Acceptable(e, f.id, f.path, f.op)
    ensures SoundBut(Taken(e, f, f.id.number, k), Case(f.id.number, false), stamp)
  {
    TakenBalanced(e, f, k);
    TakenKeeps(e, f, k);
    GotShape(e, f, k.releases, Taken(e, f, f.id.number, k), stamp);
  }

  lemma BeginSound(e: End, n: nat, business: bool, stamp: nat)
    requires SoundBut(e, Case(n, false), stamp)
    ensures SoundBut(Begin(e, business), Case(n, business), stamp)
  {
    BeginKeeps(e, n, business);
    OtherTables(e.exports, Begin(e, business).exports, e.imports, e.log.sent, e.log.got);
  }

  /** Started at once, past an empty queue. */
  lemma RunQueued(e: End, job: Job, stamp: nat)
    requires e.remote.Some? && e.thread.queue == []
    ensures Run(Enqueue(e, job), job.number, stamp) == Execute(FirstTaken(Enqueue(e, job)), job, stamp)
    ensures FirstTaken(Enqueue(e, job)).thread == e.thread
  {
    assert Enqueue(e, job).thread.queue == [job];
    RunFirst(Enqueue(e, job), stamp);
    assert [job][1..] == [];
  }

  lemma RunQueuedSound(e: End, job: Job, stamp: nat)
    requires SoundBut(e, Case(job.number, job.business), stamp) && e.remote.Some? && e.thread.queue == []
    requires job.op.Await? ==> Total(Awaits(job.number), e.log.got) >= 1
    requires job.number <= e.received && (forall n <- e.log.queued :: n < job.number)
    ensures Sound(Run(Enqueue(e, job), job.number, stamp), stamp + 1)
  {
    RunQueued(e, job, stamp);
    EnqueueKeeps(e, job);
    FirstTakenKeeps(Enqueue(e, job));
    RisingMore(e.log.queued, job.number);
    ExecuteSound(FirstTaken(Enqueue(e, job)), job, stamp);
  }

  lemma RisingMore(ns: seq<nat>, n: nat)
    requires Rising(ns) && forall m <- ns :: m < n
    ensures Rising(ns + [n])
  {
    forall i, j | 0 <= i < j < |ns + [n]| ensures (ns + [n])[i] < (ns + [n])[j] {
      assert ns[i] in ns;
    }
  }

  /** Queued, with its microtask. */
  function QueuedFor(e: End, job: Job): End {
    var queued := Enqueue(e, job);
    queued.(thread := queued.thread.(micro := e.thread.micro + [job.number]))
  }

  lemma QueuedShape(e: End, job: Job, stamp: nat)
    requires Shaped(e, stamp) && e.remote.Some? && e.thread.stack == []
    requires job.op.Await? ==> Total(Awaits(job.number), e.log.got) >= 1
    requires job.number <= e.received && (forall n <- e.thread.micro :: n < job.number)
    requires (forall n <- e.log.queued :: n < job.number)
    ensures Shaped(QueuedFor(e, job), stamp)
  {
    var d := QueuedFor(e, job);
    assert Numbers(d.thread.queue) == Numbers(e.thread.queue) + [job.number];
    forall n <- Numbers(e.thread.queue) ensures n < job.number { assert n in e.thread.micro; }
    RisingMore(Numbers(e.thread.queue), job.number);
    RisingMore(e.thread.micro, job.number);
    RisingMore(e.log.queued, job.number);
  }

  lemma QueuedSound(e: End, job: Job, stamp: nat)
    requires SoundBut(e, Case(job.number, job.business), stamp) && e.remote.Some? && e.thread.stack == []
    requires job.op.Await? ==> Total(Awaits(job.number), e.log.got) >= 1
    requires job.number <= e.received && (forall n <- e.thread.micro :: n < job.number)
    requires (forall n <- e.log.queued :: n < job.number)
    ensures Sound(QueuedFor(e, job), stamp)
  {
    EnqueueKeeps(e, job);
    SameCases(Enqueue(e, job), QueuedFor(e, job).thread, None);
    QueuedShape(e, job, stamp);
  }

  lemma InlinedSound(e: End, c: Case, number: nat, stamp: nat)
    requires SoundBut(e, c, stamp)
    ensures SoundBut(Inlined(e, number), c, stamp)
  {}

  lemma ScheduleSound(e: End, job: Job, stamp: nat)
    requires SoundBut(e, Case(job.number, job.business), stamp) && e.remote.Some? && Listening(e)
    requires job.op.Await? ==> Total(Awaits(job.number), e.log.got) >= 1
    requires job.number <= e.received && (forall n <- e.thread.micro :: n < job.number)
    requires (forall n <- e.log.queued :: n < job.number)
    ensures Sound(Schedule(e, job, stamp), stamp + 1)
  {
    if job.op.Invoke? && job.op.target == "" && job.op.name in e.inline {
      InlinedSound(e, Case(job.number, job.business), job.number, stamp);
      hide Execute, SoundBut, Sound;
      ExecuteSound(Inlined(e, job.number), job, stamp);
    } else if IsWaiting(e.thread.stack) {
      assert Pumping(e.thread.stack);
      RunQueuedSound(e, job, stamp);
    } else {
      QueuedSound(e, job, stamp);
      StampedLater(Schedule(e, job, stamp), stamp);
    }
  }

  /** A call admitted: begun, and started or queued. */
  lemma AdmitSound(e: End, f: Frame, taken: End, business: bool, stamp: nat)
    requires QueueOk(e.thread, e.received) && Ordered(e) && f.Request? && e.received < f.id.number
    requires SoundBut(taken, Case(f.id.number, false), stamp) && taken.remote.Some? && Listening(taken)
    requires taken.thread == e.thread && taken.log.queued == e.log.queued && taken.received == f.id.number
    requires f.op.Await? ==> Total(Awaits(f.id.number), taken.log.got) >= 1
    ensures Sound(Schedule(Begin(taken, business), Job(f.id.number, f.path, f.op, business), stamp), stamp + 1)
  {
    var begun, job := Begin(taken, business), Job(f.id.number, f.path, f.op, business);
    BeginSound(taken, f.id.number, business, stamp);
    forall n <- begun.thread.micro ensures n < job.number { assert n <= e.received; }
    forall n <- begun.log.queued ensures n < job.number { assert n <= e.received; }
    ScheduleSound(begun, job, stamp);
  }

  /** A call refused: answered at once with an error. */
  lemma RefusedSound(taken: End, id: CallId, stamp: nat)
    requires SoundBut(taken, Case(id.number, false), stamp) && taken.remote == Some(id.endpoint)
    ensures Sound(Refuse(taken, id), stamp + 1)
  {
    var d := Send(taken, [Throw(id)]);
    assert d == Respond(taken, id.number, [], false, Failure);
    assert Refuse(taken, id) == d.(log := d.log.(refused := taken.log.refused + [id.number]));
    hide *;
    RespondSound(taken, Case(id.number, false), [], Failure, stamp);
    NotedSound(d, taken.log.refused + [id.number], stamp);
  }

  /** The invariant says nothing of what was refused. */
  lemma NotedSound(e: End, refused: seq<nat>, stamp: nat)
    requires Sound(e, stamp)
    ensures Sound(e.(log := e.log.(refused := refused)), stamp + 1)
  {
    hide Balanced, AnsweredOnce, RepliedOnce, Active, RisingAsks, AwaitsOk, QueueOk;
  }

  /** The call of an `await` just received is one. */
  lemma TakenAwait(e: End, f: Frame, k: Taking)
    requires f.Request?
    ensures f.op.Await? ==> Total(Awaits(f.id.number), Taken(e, f, f.id.number, k).log.got) >= 1
  {
    TotalOne(Awaits(f.id.number), e.log.got, f);
  }

  lemma AcceptSound(e: End, f: Frame, stamp: nat)
    requires Sound(e, stamp) && e.remote.Some? && Listening(e) && f.Request?
    requires !Accept(e, f, f.id, f.path, f.op, f.args, stamp).1
    ensures Sound(Accept(e, f, f.id, f.path, f.op, f.args, stamp).0, stamp + 1)
  {
    var k := TakeArgs(e, f.op, f.args);
    var taken := Taken(e, f, f.id.number, k);
    TakenSound(e, f, k, stamp);
    TakenAwait(e, f, k);
    assert QueueOk(e.thread, e.received) && Ordered(e);
    assert taken.thread == e.thread && taken.log.queued == e.log.queued && taken.received == f.id.number &&
      taken.remote == e.remote;
    hide Sound, SoundBut, Taken, TakeArgs, Schedule, Begin, IsBusiness, QueueOk, Ordered;
    if k.refused {
      RefusedSound(taken, f.id, stamp);
    } else {
      AdmitSound(e, f, taken, IsBusiness(e.exports, f.op), stamp);
    }
  }

  /** A frame taken without a fault keeps the invariant, whatever the far end sent. */
  lemma ReceiveSound(e: End, f: Frame, stamp: nat)
    requires Sound(e, stamp) && Listening(e) && !Receive(e, f, stamp).1
    ensures Sound(Receive(e, f, stamp).0, stamp + 1)
  {
    if f.Hello? { GreetSound(e, f, stamp); }
    else if f.Return? || f.Throw? { ReplySound(e, f, stamp); }
    else if f.Release? { ReturnedSound(e, f, stamp); }
    else { AcceptSound(e, f, stamp); }
    if !f.Request? { StampedLater(Receive(e, f, stamp).0, stamp); }
  }

  // ── What this side does ─────────────────────────────────────────

  /** What a call is of is still held when it is sent. */
  lemma WantedIsOwing(e: End, want: Wanted)
    requires Balanced(e.exports, e.imports, e.log.sent, e.log.got) && OperationOf(e.imports, want).Some?
    ensures var op := OperationOf(e.imports, want).value;
      !op.Invoke? ==> Owing(e.log.sent, e.log.got, op.reference, TargetKind(op))
  {
    if want.Use? { HeldIsOwing(e.imports, e.log.sent, e.log.got, want.record); }
  }

  /** What was encoded is what the request carries. */
  ghost predicate Prepared(e: End, op: Operation, y: Exports, args: Payload, sending: seq<Item>) {
    && (op.Await? || op.Get? ==> args.refs == [])
    && (forall id: nat :: GrantsOf(y, id) == GrantsOf(e.exports, id) + Grants(args.refs, id))
    && |args.refs| == |sending| && forall i :: 0 <= i < |sending| ==>
       Stands(y, e.imports.records, args.refs[i], sending[i])
  }

  lemma IssueBalanced(
    e: End, want: Wanted, y: Exports, args: Payload, path: Path, sync: bool, stamp: nat, sending: seq<Item>)
    requires Balanced(e.exports, e.imports, e.log.sent, e.log.got) && OperationOf(e.imports, want).Some?
    requires ExportsOk(y) && Extends(e.exports, y) && Prepared(e, OperationOf(e.imports, want).value, y, args, sending)
    ensures var d := Issue(e, y, RequestOf(e, want, OperationOf(e.imports, want).value, args, path), sync, stamp);
      Balanced(d.exports, d.imports, d.log.sent, d.log.got)
  {
    WantedIsOwing(e, want);
    var request := RequestOf(e, want, OperationOf(e.imports, want).value, args, path);
    hide OperationOf;
    SendEncoded(e.exports, y, e.imports, e.log.sent, e.log.got, sending, request);
  }

  /** A request: its grants are on the books. */
  lemma AskBalanced(
    e: End, want: Wanted, items: seq<Item>, encodes: bool, sound: bool, sync: bool, path: Path, stamp: nat)
    requires Balanced(e.exports, e.imports, e.log.sent, e.log.got)
    ensures var d := AskFor(e, want, items, encodes, sound, sync, path, stamp);
      Balanced(d.exports, d.imports, d.log.sent, d.log.got)
  {
    var op := OperationOf(e.imports, want);
    if op.Some? && e.next + 1 <= MAX_SAFE {
      SomeOperation(e.imports, want);
      var (y, args) := Prepare(e, op.value, items, encodes, sound, path);
      PrepareEffect(e, op.value, items, encodes, sound, path);
      hide OperationOf, Prepare, Issue, RequestOf;
      if args.None? {
        OtherTables(e.exports, y, e.imports, e.log.sent, e.log.got);
      } else {
        IssueBalanced(e, want, y, args.value, path, sync, stamp, if op.value.Await? then [] else items);
      }
    }
  }

  lemma SomeOperation(m: Imports, want: Wanted)
    ensures OperationOf(m, want).Some? ==> !OperationOf(m, want).value.Get?
  {}

  lemma PrepareEffect(e: End, op: Operation, items: seq<Item>, encodes: bool, sound: bool, path: Path)
    requires ExportsOk(e.exports) && !op.Get?
    ensures var (y, args) := Prepare(e, op, items, encodes, sound, path);
      && ExportsOk(y) && Extends(e.exports, y) && Calls(y) == Calls(e.exports)
      && (args.None? ==> y.entries == e.exports.entries)
      && (args.Some? ==>
            Prepared(e, op, y, args.value, if op.Await? then [] else items))
  {
    if !op.Await? {
      var ctx := Context(path, true, e.plugins);
      EncodeEffect(e.exports, e.imports.records, items, encodes, ctx);
      if Encode(e.exports, e.imports.records, items, encodes, ctx).1.None? {
        RefusedEncodingRestores(e.exports, e.imports.records, items, encodes, ctx);
      }
    }
  }

  /** A number spent and nothing sent. */
  lemma SpentKeeps(e: End, y: Exports)
    requires Accounted(e, None) && Calls(y) == Calls(e.exports)
    ensures Accounted(e.(next := e.next + 1, exports := y), None)
  {
    forall n: nat | n > e.next + 1 ensures Total(Asked(n), e.log.sent) == 0 { assert n > e.next; }
  }

  lemma OtherExports(e: End, y: Exports)
    requires Accounted(e, None) && Calls(y) == Calls(e.exports)
    ensures Accounted(e.(exports := y), None)
  {}

  /** A call asked of `e`, not yet on the stack. */
  function Asking(e: End, request: Frame): End {
    Send(e.(next := e.next + 1, pending := e.pending + {e.next + 1}), [request])
  }

  lemma IssueIs(e: End, y: Exports, request: Frame, sync: bool, stamp: nat)
    requires request.Request?
    ensures var asked := Asking(e.(exports := y), request);
      || Issue(e, y, request, sync, stamp) == asked
      || Issue(e, y, request, sync, stamp) ==
        asked.(thread := asked.thread.(stack := asked.thread.stack + [Waiting(e.next + 1, true, stamp)]))
  {}

  lemma WaitKeeps(e: End, wait: Activation)
    requires Accounted(e, None) && wait.Waiting?
    ensures Accounted(e.(thread := e.thread.(stack := e.thread.stack + [wait])), None)
  {
    PushedWaiting(e.thread, wait);
    SameCases(e, e.thread.(stack := e.thread.stack + [wait]), None);
  }

  lemma AskingKeeps(e: End, request: Frame)
    requires Accounted(e, None) && e.next + 1 <= MAX_SAFE
    requires request.Request? && request.id == CallId(e.endpoint, e.next + 1)
    ensures Accounted(Asking(e, request), None)
  {
    hide Accounted;
    SentRequest(e, request);
  }

  lemma IssueKeeps(e: End, y: Exports, request: Frame, sync: bool, stamp: nat)
    requires Accounted(e, None) && Calls(y) == Calls(e.exports) && e.next + 1 <= MAX_SAFE
    requires request.Request? && request.id == CallId(e.endpoint, e.next + 1)
    ensures Accounted(Issue(e, y, request, sync, stamp), None)
  {
    hide *;
    OtherExports(e, y);
    IssueIs(e, y, request, sync, stamp);
    AskingKeeps(e.(exports := y), request);
    WaitKeeps(Asking(e.(exports := y), request), Waiting(e.next + 1, true, stamp));
  }

  lemma AskKeeps(e: End, want: Wanted, items: seq<Item>, encodes: bool, sound: bool, sync: bool, path: Path, stamp: nat)
    requires Accounted(e, None) && ExportsOk(e.exports)
    ensures Accounted(AskFor(e, want, items, encodes, sound, sync, path, stamp), None)
  {
    hide OperationOf, Prepare, Issue, Accounted, Calls, Prepared, ExportsOk, Extends;
    var op := OperationOf(e.imports, want);
    SomeOperation(e.imports, want);
    SpentKeeps(e, e.exports);
    if op.Some? && e.next + 1 <= MAX_SAFE {
      var (y, args) := Prepare(e, op.value, items, encodes, sound, path);
      PrepareEffect(e, op.value, items, encodes, sound, path);
      SpentKeeps(e, y);
      if args.Some? {
        IssueKeeps(e, y, RequestOf(e, want, op.value, args.value, path), sync, stamp);
      }
    }
  }

  /** A request sent: what waited before waits for no `await`. */
  lemma AskedShape(e: End, d: End, request: Frame, clock: nat)
    requires Shaped(e, clock) && e.remote.Some? && request.Request? && request.id == CallId(e.endpoint, e.next + 1)
    requires RisingAsks(e.log.sent, e.next)
    requires d == Send(e.(next := e.next + 1, exports := d.exports, pending := d.pending), [request])
    ensures Shaped(d, clock)
    ensures !request.op.Await? ==> Total(Awaits(e.next + 1), d.log.sent) == 0
  {
    forall n: nat
      ensures Total(Awaits(n), d.log.sent) ==
        Total(Awaits(n), e.log.sent) + if n == e.next + 1 && request.op.Await? then 1 else 0
    {
      TotalOne(Awaits(n), e.log.sent, request);
    }
    AwaitsAreAsked(e.log.sent, e.next + 1);
    assert d.log.sent[0] == e.log.sent[0];
  }

  lemma {:induction false} AwaitsAreAsked(log: seq<Frame>, n: nat)
    ensures Total(Awaits(n), log) <= Total(Asked(n), log)
    decreases |log|
  {
    if log != [] { AwaitsAreAsked(log[..|log| - 1], n); }
  }

  lemma IssueShape(e: End, y: Exports, request: Frame, sync: bool, stamp: nat)
    requires Shaped(e, stamp) && e.remote.Some? && RisingAsks(e.log.sent, e.next)
    requires request.Request? && request.id == CallId(e.endpoint, e.next + 1)
    ensures Shaped(Issue(e, y, request, sync, stamp), stamp + 1)
  {
    var asked := Send(e.(next := e.next + 1, exports := y, pending := e.pending + {e.next + 1}), [request]);
    AskedShape(e, asked, request, stamp);
    PushedOrNot(asked, Issue(e, y, request, sync, stamp), e.next + 1, stamp);
  }

  lemma AskShape(e: End, want: Wanted, items: seq<Item>, encodes: bool, sound: bool, sync: bool, path: Path, stamp: nat)
    requires Shaped(e, stamp) && e.remote.Some? && RisingAsks(e.log.sent, e.next)
    ensures Shaped(AskFor(e, want, items, encodes, sound, sync, path, stamp), stamp + 1)
  {
    var op, d := OperationOf(e.imports, want), AskFor(e, want, items, encodes, sound, sync, path, stamp);
    if op.Some? && e.next + 1 <= MAX_SAFE && Prepare(e, op.value, items, encodes, sound, path).1.Some? {
      var (y, args) := Prepare(e, op.value, items, encodes, sound, path);
      hide OperationOf, Prepare, Issue, RequestOf, Shaped;
      IssueShape(e, y, RequestOf(e, want, op.value, args.value, path), sync, stamp);
    } else {
      SpentShape(e, d, stamp);
    }
  }

  lemma SpentShape(e: End, d: End, stamp: nat)
    requires Shaped(e, stamp) && d == e.(next := d.next, exports := d.exports) && d.next >= e.next
    ensures Shaped(d, stamp + 1)
  {}

  lemma PushedOrNot(asked: End, d: End, number: nat, stamp: nat)
    requires Shaped(asked, stamp) && asked.remote.Some? && number <= asked.next
    requires d == asked ||
      (d == asked.(thread := asked.thread.(stack := asked.thread.stack + [Waiting(number, true, stamp)]))
       && Total(Awaits(number), asked.log.sent) == 0)
    ensures Shaped(d, stamp + 1)
  {
    if d == asked { StampedLater(asked, stamp); } else { PushedShape(asked, Waiting(number, true, stamp), stamp); }
  }

  lemma PopShape(e: End, clock: nat)
    requires Shaped(e, clock) && e.thread.stack != []
    ensures Shaped(Pop(e), clock)
  {
    var stack := Pop(e).thread.stack;
    if Pumping(stack) {
      var i :| 0 <= i < |stack| && stack[i].Waiting? && !stack[i].draining;
      assert e.thread.stack[i].Waiting? && !e.thread.stack[i].draining;
    }
  }

  lemma SoundLater(e: End, clock: nat)
    requires Sound(e, clock)
    ensures Sound(e, clock + 1)
  {
    StampedLater(e, clock);
  }

  lemma AnsweringSound(e: End, answer: Answer, stamp: nat)
    requires Sound(e, stamp) && Enabled(e, Answering(answer))
    ensures Sound(Perform(e, Answering(answer), stamp), stamp + 1)
  {
    var run := Top(e).value;
    Popped(e.thread);
    Picked(e, Pop(e).thread, Case(run.number, run.business));
    PopShape(e, stamp);
    RespondSound(Pop(e), Case(run.number, run.business), run.path, answer, stamp);
    SoundLater(Perform(e, Answering(answer), stamp), stamp);
  }

  /** The microtask of a job already started does nothing; else its job is first in the queue. */
  lemma MicroFirst(th: Thread, received: nat)
    requires QueueOk(th, received) && th.micro != []
    ensures Find(th.queue, th.micro[0]) < |th.queue| ==> th.queue[0].number == th.micro[0]
    ensures Find(th.queue, th.micro[0]) == |th.queue| ==> QueueOk(th.(micro := th.micro[1..]), received)
    ensures Find(th.queue, th.micro[0]) < |th.queue| ==>
      QueueOk(th.(micro := th.micro[1..], queue := th.queue[1..]), received)
  {
    var n, ns := th.micro[0], Numbers(th.queue);
    MicroLater(th.micro, ns);
    RisingTail(th.micro);
    var i := Find(th.queue, n);
    if i < |th.queue| {
      assert ns[0] in ns && ns[i] == n;
      assert Numbers(th.queue[1..]) == ns[1..];
      RisingTail(ns);
      forall m <- ns[1..] ensures m in th.micro[1..] {
        var j :| 0 <= j < |ns[1..]| && ns[1..][j] == m;
        assert ns[j + 1] == m && ns[0] < ns[j + 1];
      }
    } else {
      forall m <- ns ensures m != n {
        var j :| 0 <= j < |ns| && ns[j] == m;
        assert th.queue[j].number == m;
      }
    }
  }

  lemma RisingTail(ns: seq<nat>)
    requires Rising(ns) && ns != []
    ensures Rising(ns[1..]) && forall m <- ns[1..] :: m in ns
  {}

  /** What is queued after the first microtask has a later one. */
  lemma MicroLater(micro: seq<nat>, ns: seq<nat>)
    requires Rising(micro) && micro != [] && forall m <- ns :: m in micro
    ensures forall m <- ns :: m >= micro[0] && (m != micro[0] ==> m in micro[1..])
  {
    forall m <- ns ensures m >= micro[0] && (m != micro[0] ==> m in micro[1..]) {
      var i :| 0 <= i < |micro| && micro[i] == m;
      if i > 0 { assert micro[1..][i - 1] == m; }
    }
  }

  lemma MicroSound(e: End, stamp: nat)
    requires Sound(e, stamp) && Enabled(e, Micro)
    ensures Sound(Perform(e, Micro, stamp), stamp + 1)
  {
    var n, d := e.thread.micro[0], e.(thread := e.thread.(micro := e.thread.micro[1..]));
    assert Perform(e, Micro, stamp) == Run(d, n, stamp) && e.remote.Some?;
    assert Find(e.thread.queue, n) < |e.thread.queue| ==> e.thread.queue != [];
    assert Find(e.thread.queue, n) == |e.thread.queue| ==> Run(d, n, stamp) == d;
    if Find(e.thread.queue, n) == |e.thread.queue| { NoneStarts(e, stamp); } else { FirstStarts(e, stamp); }
    hide *;
  }

  /** A microtask whose call was started before. */
  lemma NoneStarts(e: End, stamp: nat)
    requires Sound(e, stamp) && e.thread.micro != [] && Find(e.thread.queue, e.thread.micro[0]) == |e.thread.queue|
    ensures Sound(e.(thread := e.thread.(micro := e.thread.micro[1..])), stamp + 1)
  {
    var d := e.(thread := e.thread.(micro := e.thread.micro[1..]));
    MicroFirst(e.thread, e.received);
    SameCases(e, d.thread, None);
    hide Balanced, Accounted, Find;
    StampedLater(d, stamp);
  }

  /** A microtask starts the first call queued. */
  lemma FirstStarts(e: End, stamp: nat)
    requires Sound(e, stamp) && e.thread.micro != [] && Find(e.thread.queue, e.thread.micro[0]) < |e.thread.queue|
    requires e.remote.Some? && e.thread.queue != []
    ensures var d := e.(thread := e.thread.(micro := e.thread.micro[1..]));
      Sound(Run(d, e.thread.micro[0], stamp), stamp + 1)
  {
    var n, d := e.thread.micro[0], e.(thread := e.thread.(micro := e.thread.micro[1..]));
    FirstReady(e, stamp);
    hide *;
    RunFirst(d, stamp);
    ExecuteSound(FirstTaken(d), e.thread.queue[0], stamp);
  }

  lemma FirstReady(e: End, stamp: nat)
    requires Sound(e, stamp) && e.thread.micro != [] && Find(e.thread.queue, e.thread.micro[0]) < |e.thread.queue|
    requires e.remote.Some?
    ensures e.thread.queue != [] && e.thread.queue[0].number == e.thread.micro[0]
    ensures var d, job := e.(thread := e.thread.(micro := e.thread.micro[1..])), e.thread.queue[0];
      && SoundBut(FirstTaken(d), Case(job.number, job.business), stamp) && FirstTaken(d).remote.Some?
      && (job.op.Await? ==> Total(Awaits(job.number), FirstTaken(d).log.got) >= 1)
  {
    hide Accounted, Balanced, Find, Stamped, Total;
    var d := e.(thread := e.thread.(micro := e.thread.micro[1..]));
    MicroFirst(e.thread, e.received);
    SameCases(e, d.thread, None);
    FirstTakenKeeps(d);
  }

  lemma SetDrainingSound(e: End, stamp: nat)
    requires Sound(e, stamp) && Enabled(e, Drain) && e.thread.queue == []
    ensures Sound(SetDraining(e, false), stamp + 1)
  {
    var d := SetDraining(e, false);
    DrainedShape(e, stamp);
    Popped(e.thread);
    PushedWaiting(Pop(e).thread, Top(e).value.(draining := false));
    SameCases(e, d.thread, None);
  }

  lemma DrainedShape(e: End, stamp: nat)
    requires Shaped(e, stamp) && Enabled(e, Drain) && e.thread.queue == []
    ensures Shaped(SetDraining(e, false), stamp + 1)
  {
    var d := SetDraining(e, false);
    assert |d.thread.stack| == |e.thread.stack|;
    forall i | 0 <= i < |e.thread.stack|
      ensures d.thread.stack[i].stamp == e.thread.stack[i].stamp && d.thread.stack[i].number == e.thread.stack[i].number
    {}
  }

  lemma WakeSound(e: End, stamp: nat)
    requires Sound(e, stamp) && Enabled(e, Wake)
    ensures Sound(Perform(e, Wake, stamp), stamp + 1)
  {
    WokenIsPopped(e, stamp);
    hide *;
    SoundHas(e, stamp);
    Popped(e.thread);
    PopShape(e, stamp);
    PoppedAccounted(e);
    StampedLater(Pop(e), stamp);
    SoundOf(Pop(e), stamp + 1);
  }

  /** A call that pumped left nothing queued. */
  lemma WokenIsPopped(e: End, stamp: nat)
    requires Sound(e, stamp) && Enabled(e, Wake)
    ensures Perform(e, Wake, stamp) == Pop(e) && e.thread.stack != [] && e.thread.stack[|e.thread.stack| - 1].Waiting?
    ensures Pop(e) == e.(thread := Pop(e).thread)
  {
    hide Balanced, Accounted;
    assert Pumping(e.thread.stack);
    assert e.thread.micro + Numbers(e.thread.queue) == e.thread.micro;
  }

  lemma PoppedAccounted(e: End)
    requires Accounted(e, None) && e.thread.stack != [] && e.thread.stack[|e.thread.stack| - 1].Waiting?
    ensures Accounted(Pop(e), None)
  {
    Popped(e.thread);
    hide Accounted;
    SameCases(e, Pop(e).thread, None);
  }

  /** A Promise settles once: `active` goes down by the business ones. */
  lemma SettleCalls(x: Exports, id: nat, answer: Answer)
    requires ExportsOk(x) && id in x.futures && x.futures[id].Unsettled?
    ensures var y := x.(futures := x.futures[id := Settled(answer)]);
      Calls(y) == Calls(x) + if id in x.names && x.names[id].business then 1 else 0
  {
    var y := x.(futures := x.futures[id := Settled(answer)]);
    if id in x.names && x.names[id].business {
      assert Unfinished(x) == Unfinished(y) + {id};
    } else {
      assert Unfinished(x) == Unfinished(y);
    }
  }

  /** Only `active` and the Promise's outcome change, together. */
  lemma SettledTables(x: Exports, y: Exports, id: nat, answer: Answer)
    requires ExportsOk(x) && id in x.futures && x.futures[id].Unsettled?
    requires y == x.(futures := x.futures[id := Settled(answer)],
                     active := if id in x.names && x.names[id].business then x.active - 1 else x.active)
    ensures ExportsOk(y) && Extends(x, y) && Calls(y) == Calls(x)
  {
    SettleCalls(x, id, answer);
    assert Unfinished(y) == Unfinished(x.(futures := y.futures));
  }

  lemma SettleSound(e: End, id: nat, answer: Answer, stamp: nat)
    requires Sound(e, stamp) && Enabled(e, Settle(id, answer))
    ensures Sound(Settled1(e, id, answer), stamp + 1)
  {
    hide *;
    var d := Settled1(e, id, answer);
    SoundHas(e, stamp);
    SettledIs(e, id, answer);
    SettledBalanced(e, d.exports);
    SameButExports(e, d, stamp);
    SoundOf(d, stamp + 1);
  }

  lemma SettledIs(e: End, id: nat, answer: Answer)
    requires Balanced(e.exports, e.imports, e.log.sent, e.log.got) && Enabled(e, Settle(id, answer))
    ensures var d := Settled1(e, id, answer);
      && d == e.(exports := d.exports) && d.exports.entries == e.exports.entries
      && ExportsOk(d.exports) && Extends(e.exports, d.exports) && Calls(d.exports) == Calls(e.exports)
  {
    assert ExportsOk(e.exports);
    hide Balanced, ExportsOk, Extends, Calls;
    SettledTables(e.exports, Settled1(e, id, answer).exports, id, answer);
  }

  lemma SettledBalanced(e: End, y: Exports)
    requires Balanced(e.exports, e.imports, e.log.sent, e.log.got)
    requires ExportsOk(y) && Extends(e.exports, y) && y.entries == e.exports.entries
    ensures Balanced(y, e.imports, e.log.sent, e.log.got)
  {
    OtherTables(e.exports, y, e.imports, e.log.sent, e.log.got);
  }

  lemma SameButExports(e: End, d: End, stamp: nat)
    requires Accounted(e, None) && Shaped(e, stamp) && d == e.(exports := d.exports)
    requires Calls(d.exports) == Calls(e.exports)
    ensures Accounted(d, None) && Shaped(d, stamp + 1)
  {}

  lemma Unregister(e: End, i: nat, stamp: nat)
    requires Sound(e, stamp) && i < |e.thread.awaiting|
    ensures var a := e.thread.awaiting[i];
      SoundBut(e.(thread := e.thread.(awaiting := e.thread.awaiting[..i] + e.thread.awaiting[i + 1..])),
        Case(a.number, a.business), stamp)
  {
    var a, th := e.thread.awaiting[i], e.thread.(awaiting := e.thread.awaiting[..i] + e.thread.awaiting[i + 1..]);
    Unregistered(e.thread, i);
    Picked(e, th, Case(a.number, a.business));
    hide Accounted, Balanced, Cases;
  }

  lemma ReportSound(e: End, i: nat, stamp: nat)
    requires Sound(e, stamp) && Enabled(e, Report(i))
    ensures Sound(Perform(e, Report(i), stamp), stamp + 1)
  {
    hide Sound, SoundBut, Respond;
    var a := e.thread.awaiting[i];
    var d := e.(thread := e.thread.(awaiting := e.thread.awaiting[..i] + e.thread.awaiting[i + 1..]));
    Unregister(e, i, stamp);
    RespondSound(d, Case(a.number, a.business), a.path, e.exports.futures[a.future].answer, stamp);
    SoundLater(Perform(e, Report(i), stamp), stamp);
  }

  lemma FreeSound(e: End, k: nat, stamp: nat)
    requires Sound(e, stamp)
    ensures Sound(Freed(e, k), stamp + 1)
  {
    var (n, releases) := GiveBack(e.imports, k);
    var d := Freed(e, k);
    assert d == Send(e.(imports := n), releases) && d.log.sent == e.log.sent + releases;
    assert ImportsOk(e.imports);
    GiveBackEffect(e.imports, k);
    assert OnlyReleases(releases);
    hide *;
    SoundHas(e, stamp);
    SendReleases(e.exports, e.imports, n, e.log.sent, e.log.got, releases);
    FreedAccounted(e, n, releases);
    FreedShape(e, n, releases, stamp);
    SentTo(e, n, releases);
    SoundOf(d, stamp + 1);
  }

  lemma SentTo(e: End, n: Imports, releases: seq<Frame>)
    ensures var d := Send(e.(imports := n), releases);
      && d.exports == e.exports && d.imports == n && d.log.sent == e.log.sent + releases && d.log.got == e.log.got
  {}

  lemma FreedAccounted(e: End, n: Imports, releases: seq<Frame>)
    requires Accounted(e, None) && OnlyReleases(releases)
    ensures Accounted(Send(e.(imports := n), releases), None)
  {
    SentReleases(e, None, releases);
    hide AnsweredOnce, RepliedOnce, Active, RisingAsks;
  }

  lemma FreedShape(e: End, n: Imports, releases: seq<Frame>, stamp: nat)
    requires Shaped(e, stamp) && OnlyReleases(releases)
    ensures Shaped(Send(e.(imports := n), releases), stamp + 1)
  {
    forall m: nat ensures Total(Awaits(m), e.log.sent + releases) == Total(Awaits(m), e.log.sent) {
      TotalSplit(Awaits(m), e.log.sent, releases);
      ReleasesAskNothing(releases, m);
    }
    assert (e.log.sent + releases)[0] == e.log.sent[0];
  }

  lemma AskSound(
    e: End, want: Wanted, items: seq<Item>, encodes: bool, sound: bool, sync: bool, path: Path, stamp: nat)
    requires Sound(e, stamp) && e.remote.Some?
    ensures Sound(AskFor(e, want, items, encodes, sound, sync, path, stamp), stamp + 1)
  {
    TablesAndAsks(e, stamp);
    hide *;
    SoundHas(e, stamp);
    AskBalanced(e, want, items, encodes, sound, sync, path, stamp);
    AskKeeps(e, want, items, encodes, sound, sync, path, stamp);
    AskShape(e, want, items, encodes, sound, sync, path, stamp);
    SoundOf(AskFor(e, want, items, encodes, sound, sync, path, stamp), stamp + 1);
  }

  lemma TablesAndAsks(e: End, stamp: nat)
    requires Sound(e, stamp)
    ensures ExportsOk(e.exports) && RisingAsks(e.log.sent, e.next)
  {}

  lemma CollectSound(e: End, k: nat, stamp: nat)
    requires Sound(e, stamp) && Enabled(e, Collect(k))
    ensures Sound(Perform(e, Collect(k), stamp), stamp + 1)
  {
    var d := Perform(e, Collect(k), stamp);
    CollectKeeps(e.exports, e.imports, k, e.log.sent, e.log.got);
    hide Balanced;
    SoundLaterBut(e, d, stamp);
  }

  lemma SoundLaterBut(e: End, d: End, stamp: nat)
    requires Accounted(e, None) && Shaped(e, stamp) && d == e.(imports := d.imports)
    requires Balanced(d.exports, d.imports, d.log.sent, d.log.got)
    ensures Sound(d, stamp + 1)
  {
    hide Balanced;
  }

  lemma DrainSound(e: End, stamp: nat)
    requires Sound(e, stamp) && Enabled(e, Drain)
    ensures Sound(Perform(e, Drain, stamp), stamp + 1)
  {
    hide Sound, Run, SetDraining;
    if e.thread.queue == [] { SetDrainingSound(e, stamp); } else { RunSound(e, stamp); }
  }

  /** Whatever this side does next keeps the invariant. */
  lemma PerformSound(e: End, act: Act, stamp: nat)
    requires Sound(e, stamp) && Enabled(e, act)
    ensures Sound(Perform(e, act, stamp), stamp + 1)
  {
    hide Sound, AskFor, Respond, Run, SetDraining, Woken, Settled1, Freed, InCode;
    match act
    case Ask(want, items, encodes, sound, sync, path) =>
      AskSound(e, want, items, encodes, sound, sync, path, stamp);
    case Answering(answer) => AnsweringSound(e, answer, stamp);
    case Micro => MicroSound(e, stamp);
    case Drain => DrainSound(e, stamp);
    case Wake => WakeSound(e, stamp);
    case Settle(id, answer) => SettleSound(e, id, answer, stamp);
    case Report(i) => ReportSound(e, i, stamp);
    case Collect(k) => CollectSound(e, k, stamp);
    case Free(k) => FreeSound(e, k, stamp);
  }

  /** A log of one greeting carries nothing. */
  lemma OnlyHello(f: Frame, g: Gauge)
    requires f.Hello?
    ensures Total(g, [f]) == 0 && Offered([f]) == {} && LastAsked([f]) == 0
  {
    assert [f][..0] == [];
    TotalOne(g, [], f);
    assert [] + [f] == [f];
    OfferedOne([], f);
  }

  lemma StartSound(endpoint: nat, host: bool, inline: set<string>)
    ensures Sound(Start(endpoint, host, inline), 0)
  {
    var e := Start(endpoint, host, inline);
    forall g: Gauge ensures Total(g, e.log.sent) == 0 { OnlyHello(e.log.sent[0], g); }
    OnlyHello(e.log.sent[0], Asked(0));
    assert e.log.sent[..0] == [];
    assert Cases(e.thread) == [];
    assert Unfinished(e.exports) == {};
    assert Numbers([]) == [];
  }
}
