/** Every step of a session keeps its paths within the calls made. */
module PathSteps {
  import opened Wire
  import opened References
  import opened Endpoint
  import opened Paths
  import opened Account

  lemma SentWithinOne(sent: seq<Frame>, f: Frame, own: CallId, far: CallId)
    requires SentWithin(sent, own, far) && FrameWithin(f, own, far) && (f.Request? ==> f.id !in f.path)
    ensures SentWithin(sent + [f], own, far)
  {}

  lemma SentWithinBare(sent: seq<Frame>, frames: seq<Frame>, own: CallId, far: CallId)
    requires SentWithin(sent, own, far) && forall f <- frames :: f.Release? || f.Throw?
    ensures SentWithin(sent + frames, own, far)
  {}

  lemma RespondWithin(e: End, n: nat, path: Path, business: bool, answer: Answer, far: CallId)
    requires EndWithin(e, far) && e.remote.Some? && Within(path, CallId(e.endpoint, e.next), far)
    ensures EndWithin(Respond(e, n, path, business, answer), far)
  {
    var own, id := CallId(e.endpoint, e.next), CallId(e.remote.value, n);
    match answer
    case Failure => SentWithinOne(e.log.sent, Throw(id), own, far);
    case Value(items, encodes, sound) =>
      var ctx := Context(path, business, e.plugins);
      EncodeWithin(e.exports, e.imports.records, items, encodes, ctx, own, far);
      var (y, refs) := Encode(e.exports, e.imports.records, items, encodes, ctx);
      SentWithinOne(e.log.sent, if refs.Some? then Return(id, Payload(refs.value, sound)) else Throw(id), own, far);
  }

  lemma EnteredWithin(e: End, path: Path, far: CallId)
    requires EndWithin(e, far) && Within(path, CallId(e.endpoint, e.next), far)
    ensures EndWithin(e.(thread := e.thread.(contexts := e.thread.contexts + {path})), far)
  {}

  lemma ExecuteWithin(e: End, job: Job, stamp: nat, far: CallId)
    requires EndWithin(e, far) && e.remote.Some?
    requires Within(job.path, CallId(e.endpoint, e.next), far) && job.number <= far.number
    ensures EndWithin(Execute(e, job, stamp), far)
  {
    var path := job.path + [CallId(e.remote.value, job.number)];
    assert Within(path, CallId(e.endpoint, e.next), far);
    EnteredWithin(e, path, far);
    var entered := e.(thread := e.thread.(contexts := e.thread.contexts + {path}));
    if job.op.Await? {
      if job.op.reference in e.exports.futures && e.exports.futures[job.op.reference].Settled? {
        RespondWithin(entered, job.number, path, job.business, e.exports.futures[job.op.reference].answer, far);
      } else if Related(e, job.path) {
        RespondWithin(entered, job.number, path, job.business, Failure, far);
      }
    }
  }

  lemma RunWithin(e: End, number: nat, stamp: nat, far: CallId)
    requires EndWithin(e, far) && e.remote.Some?
    ensures EndWithin(Run(e, number, stamp), far)
  {
    var i := Find(e.thread.queue, number);
    if i < |e.thread.queue| {
      var job := e.thread.queue[i];
      assert job in e.thread.queue;
      var d := e.(thread := e.thread.(queue := e.thread.queue[..i] + e.thread.queue[i + 1..]),
        log := e.log.(started := e.log.started + [number]));
      assert ThreadWithin(d.thread, CallId(e.endpoint, e.next), far);
      ExecuteWithin(d, job, stamp, far);
    }
  }

  // ── Receiving ───────────────────────────────────────────────────

  lemma TakeSends(e: End, payload: Payload)
    requires ImportsOk(e.imports)
    ensures forall f <- Take(e.exports, e.imports, payload, e.host).releases :: f.Release?
  {
    var d := Decode(e.exports, e.imports, payload.refs, e.host);
    if !d.fault {
      DecodeEffect(e.exports, e.imports, payload.refs, e.host);
      DismissEffect(d.imports, d.imported);
    }
  }

  lemma ReplyWithin(e: End, f: Frame, id: CallId, value: Payload, far: CallId)
    requires EndWithin(e, far) && ImportsOk(e.imports) && RefsWithin(value.refs, CallId(e.endpoint, e.next), far)
    ensures EndWithin(Reply(e, f, id, value).0, far)
  {
    var own := CallId(e.endpoint, e.next);
    TakeWithin(e.exports, e.imports, value, e.host, own, far);
    TakeSends(e, value);
    SentWithinBare(e.log.sent, Take(e.exports, e.imports, value, e.host).releases, own, far);
  }

  lemma TakenWithin(e: End, f: Frame, op: Operation, args: Payload, far: CallId, number: nat)
    requires EndWithin(e, far) && ImportsOk(e.imports)
    requires op.Await? || op.Get? || RefsWithin(args.refs, CallId(e.endpoint, e.next), far)
    ensures EndWithin(Taken(e, f, number, TakeArgs(e, op, args)), far)
  {
    var own := CallId(e.endpoint, e.next);
    if !(op.Await? || op.Get?) {
      TakeWithin(e.exports, e.imports, args, e.host, own, far);
      TakeSends(e, args);
    }
    SentWithinBare(e.log.sent, TakeArgs(e, op, args).releases, own, far);
  }

  lemma QueueWithin(e: End, job: Job, far: CallId)
    requires EndWithin(e, far) && Within(job.path, CallId(e.endpoint, e.next), far) && job.number <= far.number
    ensures EndWithin(Enqueue(e, job), far)
  {}

  lemma ScheduleWithin(e: End, job: Job, stamp: nat, far: CallId)
    requires EndWithin(e, far) && e.remote.Some?
    requires Within(job.path, CallId(e.endpoint, e.next), far) && job.number <= far.number
    ensures EndWithin(Schedule(e, job, stamp), far)
  {
    if job.op.Invoke? && job.op.target == "" && job.op.name in e.inline {
      ExecuteWithin(e, job, stamp, far);
    } else {
      QueueWithin(e, job, far);
      if IsWaiting(e.thread.stack) { RunWithin(Enqueue(e, job), job.number, stamp, far); }
    }
  }

  lemma BeginWithin(e: End, business: bool, far: CallId)
    requires EndWithin(e, far)
    ensures EndWithin(Begin(e, business), far)
  {}

  lemma AcceptWithin(e: End, f: Frame, stamp: nat, far: CallId)
    requires EndWithin(e, far) && ImportsOk(e.imports) && e.remote.Some? && f.Request?
    requires FrameWithin(f, CallId(e.endpoint, e.next), far) && f.id.number <= far.number
    ensures EndWithin(Accept(e, f, f.id, f.path, f.op, f.args, stamp).0, far)
  {
    var k := TakeArgs(e, f.op, f.args);
    var taken := Taken(e, f, f.id.number, k);
    TakenWithin(e, f, f.op, f.args, far, f.id.number);
    if Acceptable(e, f.id, f.path, f.op) && !k.fault {
      SentWithinOne(taken.log.sent, Throw(f.id), CallId(e.endpoint, e.next), far);
      var business := IsBusiness(e.exports, f.op);
      BeginWithin(taken, business, far);
      ScheduleWithin(Begin(taken, business), Job(f.id.number, f.path, f.op, business), stamp, far);
    }
  }

  /** A frame with paths within the calls made keeps them so. */
  lemma ReceiveWithin(e: End, f: Frame, stamp: nat, far: CallId)
    requires EndWithin(e, far) && ImportsOk(e.imports) && ExportsOk(e.exports)
    requires FrameWithin(f, CallId(e.endpoint, e.next), far)
    requires f.Request? ==> f.id.number <= far.number
    requires f.Hello? ==> f.endpoint == far.endpoint
    ensures EndWithin(Receive(e, f, stamp).0, far)
  {
    if f.Hello? || e.remote.None? {
    } else if f.Return? {
      ReplyWithin(e, f, f.id, f.value, far);
    } else if f.Throw? {
      ReplyWithin(e, f, f.id, Payload([], true), far);
    } else if f.Release? {
      if !Returned(e, f, f.reference, f.count).1 {
        TakeBackEffect(e.exports, f.reference, f.count);
        assert TablesWithin(TakeBack(e.exports, f.reference, f.count), e.imports.records, CallId(e.endpoint, e.next),
          far);
      }
    } else {
      AcceptWithin(e, f, stamp, far);
    }
  }

  // ── What this side does ─────────────────────────────────────────

  lemma CodePathWithin(e: End, path: Path, far: CallId)
    requires EndWithin(e, far) && InCode(e, path)
    ensures Within(path, CallId(e.endpoint, e.next), far)
  {
    if e.thread.stack != [] { assert Top(e).value in e.thread.stack; }
  }

  lemma RequestWithin(e: End, want: Wanted, op: Operation, args: Payload, path: Path, far: CallId)
    requires EndWithin(e, far) && Within(path, CallId(e.endpoint, e.next), far) && e.endpoint != far.endpoint
    requires op.Await? || op.Get? || RefsWithin(args.refs, CallId(e.endpoint, e.next), far)
    ensures var f := RequestOf(e, want, op, args, path);
      FrameWithin(f, CallId(e.endpoint, e.next), far) && f.id !in f.path
  {
    var own := CallId(e.endpoint, e.next);
    if want.Use? && want.record < |e.imports.records| { assert e.imports.records[want.record] in e.imports.records; }
    assert Within(path + OriginOf(e.imports, want), own, far);
  }

  lemma PrepareWithin(e: End, op: Operation, items: seq<Item>, encodes: bool, sound: bool, path: Path, far: CallId)
    requires EndWithin(e, far) && Within(path, CallId(e.endpoint, e.next), far)
    ensures var (y, args) := Prepare(e, op, items, encodes, sound, path);
      && TablesWithin(y, e.imports.records, CallId(e.endpoint, e.next), far)
      && (args.Some? ==> RefsWithin(args.value.refs, CallId(e.endpoint, e.next), far))
  {
    EncodeWithin(e.exports, e.imports.records, items, encodes, Context(path, true, e.plugins),
      CallId(e.endpoint, e.next), far);
  }

  lemma SpentWithin(e: End, y: Exports, far: CallId)
    requires EndWithin(e, far) && TablesWithin(y, e.imports.records, CallId(e.endpoint, e.next), far)
    ensures EndWithin(e.(next := e.next + 1, exports := y), far)
  {
    var own, own2 := CallId(e.endpoint, e.next), CallId(e.endpoint, e.next + 1);
    SentWithinLater(e.log.sent, own, far, own2, far);
    TablesWithinLater(y, e.imports.records, own, far, own2, far);
    ThreadWithinLater(e.thread, own, far, own2, far);
  }

  lemma IssueWithin(e: End, y: Exports, f: Frame, sync: bool, stamp: nat, far: CallId)
    requires EndWithin(e, far) && TablesWithin(y, e.imports.records, CallId(e.endpoint, e.next), far)
    requires f.Request? && FrameWithin(f, CallId(e.endpoint, e.next), far) && f.id !in f.path
    ensures EndWithin(Issue(e, y, f, sync, stamp), far)
  {
    var own, own2 := CallId(e.endpoint, e.next), CallId(e.endpoint, e.next + 1);
    SpentWithin(e, y, far);
    FrameWithinLater(f, own, far, own2, far);
    SentWithinOne(e.log.sent, f, own2, far);
    assert ThreadWithin(Issue(e, y, f, sync, stamp).thread, own2, far);
  }

  lemma AskWithin(
    e: End, want: Wanted, items: seq<Item>, encodes: bool, sound: bool, sync: bool, path: Path, stamp: nat, far: CallId)
    requires EndWithin(e, far) && Within(path, CallId(e.endpoint, e.next), far) && e.endpoint != far.endpoint
    ensures EndWithin(AskFor(e, want, items, encodes, sound, sync, path, stamp), far)
  {
    hide EndWithin, Prepare, Issue, OperationOf, TablesWithin, RefsWithin, FrameWithin;
    var op := OperationOf(e.imports, want);
    assert TablesWithin(e.exports, e.imports.records, CallId(e.endpoint, e.next), far) by { EndTables(e, far); }
    SpentWithin(e, e.exports, far);
    if op.Some? && e.next + 1 <= MAX_SAFE {
      var (y, args) := Prepare(e, op.value, items, encodes, sound, path);
      PrepareWithin(e, op.value, items, encodes, sound, path, far);
      SpentWithin(e, y, far);
      if args.Some? {
        RequestWithin(e, want, op.value, args.value, path, far);
        IssueWithin(e, y, RequestOf(e, want, op.value, args.value, path), sync, stamp, far);
      }
    }
  }

  lemma EndTables(e: End, far: CallId)
    requires EndWithin(e, far)
    ensures TablesWithin(e.exports, e.imports.records, CallId(e.endpoint, e.next), far)
  {}

  lemma FreedWithin(e: End, k: nat, far: CallId)
    requires EndWithin(e, far)
    ensures EndWithin(Freed(e, k), far)
  {
    var own := CallId(e.endpoint, e.next);
    var (n, releases) := GiveBack(e.imports, k);
    if k < |e.imports.records| { assert e.imports.records[k] in e.imports.records; }
    forall r <- n.records ensures Within(r.origin, own, far) {
      var i :| 0 <= i < |n.records| && n.records[i] == r;
      assert e.imports.records[i] in e.imports.records;
    }
    SentWithinBare(e.log.sent, releases, own, far);
  }

  lemma ThreadStep(e: End, d: End, far: CallId)
    requires EndWithin(e, far) && d == e.(thread := d.thread) && ThreadWithin(d.thread, CallId(e.endpoint, e.next), far)
    ensures EndWithin(d, far)
  {}

  lemma PopWithin(e: End, far: CallId)
    requires EndWithin(e, far) && e.thread.stack != []
    ensures EndWithin(Pop(e), far)
  {
    assert forall entry <- Pop(e).thread.stack :: entry in e.thread.stack;
  }

  lemma DrainedWithin(e: End, far: CallId)
    requires EndWithin(e, far) && Top(e).Some? && Top(e).value.Waiting?
    ensures EndWithin(SetDraining(e, false), far)
  {
    PopWithin(e, far);
    assert forall entry <- SetDraining(e, false).thread.stack :: entry in Pop(e).thread.stack || entry.Waiting?;
    ThreadStep(e, SetDraining(e, false), far);
  }

  lemma ReportedWithin(e: End, i: nat, far: CallId)
    requires EndWithin(e, far) && Enabled(e, Report(i))
    ensures EndWithin(Perform(e, Report(i), 0), far)
  {
    var a := e.thread.awaiting[i];
    assert a in e.thread.awaiting;
    var d := e.(thread := e.thread.(awaiting := e.thread.awaiting[..i] + e.thread.awaiting[i + 1..]));
    ThreadStep(e, d, far);
    hide Respond;
    RespondWithin(d, a.number, a.path, a.business, e.exports.futures[a.future].answer, far);
  }

  lemma CollectedWithin(e: End, k: nat, far: CallId)
    requires EndWithin(e, far) && Enabled(e, Collect(k))
    ensures EndWithin(Perform(e, Collect(k), 0), far)
  {
    var d := Perform(e, Collect(k), 0);
    assert e.imports.records[k] in e.imports.records;
    forall r <- d.imports.records ensures Within(r.origin, CallId(e.endpoint, e.next), far) {
      var i :| 0 <= i < |d.imports.records| && d.imports.records[i] == r;
      assert e.imports.records[i] in e.imports.records;
    }
  }

  lemma AnsweredWithin(e: End, answer: Answer, far: CallId)
    requires EndWithin(e, far) && Enabled(e, Answering(answer))
    ensures EndWithin(Perform(e, Answering(answer), 0), far)
  {
    assert Top(e).value in e.thread.stack;
    PopWithin(e, far);
    hide Respond;
    RespondWithin(Pop(e), Top(e).value.number, Top(e).value.path, Top(e).value.business, answer, far);
  }

  lemma SettledWithin(e: End, id: nat, answer: Answer, far: CallId)
    requires EndWithin(e, far)
    ensures EndWithin(Settled1(e, id, answer), far)
  {}

  lemma PerformWithin(e: End, act: Act, stamp: nat, far: CallId)
    requires EndWithin(e, far) && Enabled(e, act) && e.endpoint != far.endpoint
    ensures EndWithin(Perform(e, act, stamp), far)
  {
    hide EndWithin, AskFor, Run, Respond, Freed, SetDraining, Settled1, InCode;
    match act
    case Ask(want, items, encodes, sound, sync, path) =>
      CodePathWithin(e, path, far);
      AskWithin(e, want, items, encodes, sound, sync, path, stamp, far);
    case Answering(answer) => AnsweredWithin(e, answer, far);
    case Micro =>
      MicroWithin(e, far);
      RunWithin(e.(thread := e.thread.(micro := e.thread.micro[1..])), e.thread.micro[0], stamp, far);
    case Drain =>
      if e.thread.queue == [] { DrainedWithin(e, far); } else { RunWithin(e, e.thread.queue[0].number, stamp, far); }
    case Wake => WokenWithin(e, far);
    case Settle(id, answer) => SettledWithin(e, id, answer, far);
    case Report(i) => ReportedWithin(e, i, far);
    case Collect(k) => CollectedWithin(e, k, far);
    case Free(k) => FreedWithin(e, k, far);
  }

  lemma MicroWithin(e: End, far: CallId)
    requires EndWithin(e, far) && e.thread.micro != []
    ensures EndWithin(e.(thread := e.thread.(micro := e.thread.micro[1..])), far)
  {
    ThreadStep(e, e.(thread := e.thread.(micro := e.thread.micro[1..])), far);
  }

  lemma WokenWithin(e: End, far: CallId)
    requires EndWithin(e, far) && e.thread.stack != []
    ensures EndWithin(Woken(e), far)
  {
    PopWithin(e, far);
    ThreadStep(Pop(e), Woken(e), far);
  }
}
