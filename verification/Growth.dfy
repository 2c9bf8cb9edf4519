/** What every step of a session only adds to: its logs, the ids it named, its calls; and what
    it puts on the stack. */
module Growth {
  import opened Wire
  import opened References
  import opened Endpoint

  /** Every entry of `after` was there before, or is new: of this instant, and a wait only for
      the call just made. */
  ghost predicate Came(before: seq<Activation>, after: seq<Activation>, stamp: nat, next: nat) {
    forall i :: 0 <= i < |after| ==> Old(before, after[i]) || New(after[i], stamp, next)
  }

  predicate New(entry: Activation, stamp: nat, next: nat) {
    entry.stamp == stamp && (entry.Waiting? ==> entry.number == next + 1)
  }

  predicate Old(before: seq<Activation>, entry: Activation) {
    exists j :: 0 <= j < |before| && Same(before[j], entry)
  }

  predicate Same(one: Activation, other: Activation) {
    one.number == other.number && one.stamp == other.stamp && one.Waiting? == other.Waiting?
  }

  /** `d` comes after `e`: `e` grown. */
  ghost predicate Grown(e: End, d: End, stamp: nat) {
    && d.endpoint == e.endpoint && d.host == e.host && d.next >= e.next
    && (e.remote.Some? ==> d.remote == e.remote)
    && e.log.sent <= d.log.sent
    && Extends(e.exports, d.exports)
    && Came(e.thread.stack, d.thread.stack, stamp, e.next)
  }

  lemma SameStack(stack: seq<Activation>, stamp: nat, next: nat)
    ensures Came(stack, stack, stamp, next)
  {
    forall i | 0 <= i < |stack| ensures Old(stack, stack[i]) { assert Same(stack[i], stack[i]); }
  }

  lemma PushedStack(stack: seq<Activation>, entry: Activation, stamp: nat, next: nat)
    requires New(entry, stamp, next)
    ensures Came(stack, stack + [entry], stamp, next)
  {
    SameStack(stack, stamp, next);
    forall i | 0 <= i < |stack + [entry]|
      ensures Old(stack, (stack + [entry])[i]) || New((stack + [entry])[i], stamp, next)
    {
      if i < |stack| { assert Old(stack, stack[i]) || New(stack[i], stamp, next); }
    }
  }

  lemma PoppedStack(stack: seq<Activation>, stamp: nat, next: nat)
    requires stack != []
    ensures Came(stack, stack[..|stack| - 1], stamp, next)
  {
    forall i | 0 <= i < |stack| - 1 ensures Old(stack, stack[i]) { assert Same(stack[i], stack[i]); }
  }

  lemma RespondGrows(e: End, n: nat, path: Path, business: bool, answer: Answer)
    requires e.remote.Some? && ExportsOk(e.exports)
    ensures var d := Respond(e, n, path, business, answer);
      d == e.(exports := d.exports, log := d.log) && d.log.got == e.log.got && e.log.sent <= d.log.sent &&
        Extends(e.exports, d.exports)
  {
    if answer.Value? {
      EncodeEffect(e.exports, e.imports.records, answer.items, answer.encodes, Context(path, business, e.plugins));
    }
  }

  lemma ExecuteGrows(e: End, job: Job, stamp: nat)
    requires e.remote.Some? && ExportsOk(e.exports)
    ensures Grown(e, Execute(e, job, stamp), stamp) && Execute(e, job, stamp).log.got == e.log.got
  {
    var path := job.path + [CallId(e.remote.value, job.number)];
    var entered := e.(thread := e.thread.(contexts := e.thread.contexts + {path}));
    SameStack(e.thread.stack, stamp, e.next);
    if job.op.Await? {
      if job.op.reference in e.exports.futures && e.exports.futures[job.op.reference].Settled? {
        RespondGrows(entered, job.number, path, job.business, e.exports.futures[job.op.reference].answer);
      } else if Related(e, job.path) {
        RespondGrows(entered, job.number, path, job.business, Failure);
      }
    } else {
      PushedStack(e.thread.stack, Running(job.number, path, job.business, stamp), stamp, e.next);
    }
  }

  lemma RunGrows(e: End, number: nat, stamp: nat)
    requires e.remote.Some? && ExportsOk(e.exports)
    ensures Grown(e, Run(e, number, stamp), stamp) && Run(e, number, stamp).log.got == e.log.got
  {
    hide Execute, Find, Came;
    var i := Find(e.thread.queue, number);
    SameStack(e.thread.stack, stamp, e.next);
    if i < |e.thread.queue| {
      ExecuteGrows(e.(thread := e.thread.(queue := e.thread.queue[..i] + e.thread.queue[i + 1..]),
        log := e.log.(started := e.log.started + [number])),
                   e.thread.queue[i], stamp);
    }
  }

  lemma ScheduleGrows(e: End, job: Job, stamp: nat)
    requires e.remote.Some? && ExportsOk(e.exports)
    ensures Grown(e, Schedule(e, job, stamp), stamp) && Schedule(e, job, stamp).log.got == e.log.got
  {
    SameStack(e.thread.stack, stamp, e.next);
    if job.op.Invoke? && job.op.target == "" && job.op.name in e.inline {
      ExecuteGrows(e, job, stamp);
    } else if IsWaiting(e.thread.stack) {
      RunGrows(Enqueue(e, job), job.number, stamp);
    }
  }

  lemma AcceptGrows(e: End, f: Frame, id: CallId, path: Path, op: Operation, args: Payload, stamp: nat)
    requires e.remote.Some? && ExportsOk(e.exports) && !Accept(e, f, id, path, op, args, stamp).1
    ensures var d := Accept(e, f, id, path, op, args, stamp).0; Grown(e, d, stamp) && d.log.got == e.log.got + [f]
  {
    SameStack(e.thread.stack, stamp, e.next);
    var k := TakeArgs(e, op, args);
    if !k.refused {
      var begun := Begin(Taken(e, f, id.number, k), IsBusiness(e.exports, op));
      assert ExportsOk(begun.exports) && Extends(e.exports, begun.exports);
      ScheduleGrows(begun, Job(id.number, path, op, IsBusiness(e.exports, op)), stamp);
      ExtendsTrans(e.exports, begun.exports,
        Schedule(begun, Job(id.number, path, op, IsBusiness(e.exports, op)), stamp).exports);
    }
  }

  lemma ReceiveGrows(e: End, f: Frame, stamp: nat)
    requires ExportsOk(e.exports) && !Receive(e, f, stamp).1
    ensures var d := Receive(e, f, stamp).0; Grown(e, d, stamp) && d.log.got == e.log.got + [f]
  {
    SameStack(e.thread.stack, stamp, e.next);
    if f.Request? {
      AcceptGrows(e, f, f.id, f.path, f.op, f.args, stamp);
    }
  }

  lemma PrepareGrows(e: End, op: Operation, items: seq<Item>, encodes: bool, sound: bool, path: Path)
    requires ExportsOk(e.exports)
    ensures Extends(e.exports, Prepare(e, op, items, encodes, sound, path).0)
  {
    if !op.Await? { EncodeEffect(e.exports, e.imports.records, items, encodes, Context(path, true, e.plugins)); }
  }

  lemma IssueGrows(e: End, y: Exports, f: Frame, sync: bool, stamp: nat)
    requires f.Request? && Extends(e.exports, y)
    ensures var d := Issue(e, y, f, sync, stamp); Grown(e, d, stamp) && d.log.got == e.log.got
  {
    SameStack(e.thread.stack, stamp, e.next);
    PushedStack(e.thread.stack, Waiting(e.next + 1, true, stamp), stamp, e.next);
  }

  lemma AskGrows(e: End, want: Wanted, items: seq<Item>, encodes: bool, sound: bool, sync: bool, path: Path, stamp: nat)
    requires ExportsOk(e.exports)
    ensures var d := AskFor(e, want, items, encodes, sound, sync, path, stamp);
      Grown(e, d, stamp) && d.log.got == e.log.got
  {
    hide OperationOf, Prepare, Issue, Came, ExportsOk;
    SameStack(e.thread.stack, stamp, e.next);
    var op := OperationOf(e.imports, want);
    if op.Some? {
      var (y, args) := Prepare(e, op.value, items, encodes, sound, path);
      PrepareGrows(e, op.value, items, encodes, sound, path);
      if args.Some? { IssueGrows(e, y, RequestOf(e, want, op.value, args.value, path), sync, stamp); }
    }
  }

  lemma AnsweringGrows(e: End, answer: Answer, stamp: nat)
    requires ExportsOk(e.exports) && Enabled(e, Answering(answer))
    ensures var d := Perform(e, Answering(answer), stamp); Grown(e, d, stamp) && d.log.got == e.log.got
  {
    PoppedStack(e.thread.stack, stamp, e.next);
    RespondGrows(Pop(e), Top(e).value.number, Top(e).value.path, Top(e).value.business, answer);
  }

  lemma ReportGrows(e: End, i: nat, stamp: nat)
    requires ExportsOk(e.exports) && Enabled(e, Report(i))
    ensures var d := Perform(e, Report(i), stamp); Grown(e, d, stamp) && d.log.got == e.log.got
  {
    var a := e.thread.awaiting[i];
    SameStack(e.thread.stack, stamp, e.next);
    RespondGrows(e.(thread := e.thread.(awaiting := e.thread.awaiting[..i] + e.thread.awaiting[i + 1..])),
                 a.number, a.path, a.business, e.exports.futures[a.future].answer);
  }

  lemma PerformGrows(e: End, act: Act, stamp: nat)
    requires ExportsOk(e.exports) && Enabled(e, act)
    ensures var d := Perform(e, act, stamp); Grown(e, d, stamp) && d.log.got == e.log.got
  {
    match act
    case Ask(want, items, encodes, sound, sync, path) => AskGrows(e, want, items, encodes, sound, sync, path, stamp);
    case Answering(answer) => AnsweringGrows(e, answer, stamp);
    case Micro => RunGrows(e.(thread := e.thread.(micro := e.thread.micro[1..])), e.thread.micro[0], stamp);
    case Drain =>
      if e.thread.queue == [] { DrainedStack(e, stamp); } else { RunGrows(e, e.thread.queue[0].number, stamp); }
    case Wake => PoppedStack(e.thread.stack, stamp, e.next);
    case Report(i) => ReportGrows(e, i, stamp);
    case Settle(id, answer) => SameStack(e.thread.stack, stamp, e.next);
    case Collect(k) => SameStack(e.thread.stack, stamp, e.next);
    case Free(k) => SameStack(e.thread.stack, stamp, e.next);
  }

  lemma DrainedStack(e: End, stamp: nat)
    requires Top(e).Some? && Top(e).value.Waiting?
    ensures Came(e.thread.stack, SetDraining(e, false).thread.stack, stamp, e.next)
  {
    var stack := SetDraining(e, false).thread.stack;
    forall i | 0 <= i < |stack| ensures Old(e.thread.stack, stack[i]) { assert Same(e.thread.stack[i], stack[i]); }
  }
}
