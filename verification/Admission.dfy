/** Every call that arrives is admitted in one way: refused for its arguments, run at once, or
    queued. */
module Admission {
  import opened Wire
  import opened References
  import opened Endpoint

  function Times(ns: seq<nat>, n: nat): nat {
    if ns == [] then 0 else Times(ns[..|ns| - 1], n) + if ns[|ns| - 1] == n then 1 else 0
  }

  lemma TimesOne(ns: seq<nat>, m: nat, n: nat)
    ensures Times(ns + [m], n) == Times(ns, n) + if m == n then 1 else 0
  {
    assert (ns + [m])[..|ns|] == ns;
  }

  /** How often the call `n` was admitted, in any way. */
  function Admitted(log: Log, n: nat): nat {
    Times(log.queued, n) + Times(log.refused, n) + Times(log.inlined, n)
  }

  /** Each call received was admitted once, and no other. */
  ghost predicate AllAdmitted(log: Log) {
    forall n: nat :: Admitted(log, n) == Total(Asked(n), log.got)
  }

  /** No call was received or admitted between these logs. */
  predicate SameCalls(log: Log, later: Log) {
    later.got == log.got && later.queued == log.queued && later.refused == log.refused && later.inlined == log.inlined
  }

  lemma RespondSame(e: End, n: nat, path: Path, business: bool, answer: Answer)
    requires e.remote.Some?
    ensures SameCalls(e.log, Respond(e, n, path, business, answer).log)
  {
    hide Encode;
  }

  lemma ExecuteSame(e: End, job: Job, stamp: nat)
    requires e.remote.Some?
    ensures SameCalls(e.log, Execute(e, job, stamp).log)
  {
    hide Respond, Related, SameCalls;
    var path := job.path + [CallId(e.remote.value, job.number)];
    var entered := e.(thread := e.thread.(contexts := e.thread.contexts + {path}));
    if job.op.Await? && job.op.reference in e.exports.futures && e.exports.futures[job.op.reference].Settled? {
      RespondSame(entered, job.number, path, job.business, e.exports.futures[job.op.reference].answer);
    } else {
      RespondSame(entered, job.number, path, job.business, Failure);
      LogSame(e.log);
    }
  }

  lemma LogSame(log: Log)
    ensures SameCalls(log, log)
  {}

  lemma RunSame(e: End, number: nat, stamp: nat)
    requires e.remote.Some?
    ensures SameCalls(e.log, Run(e, number, stamp).log)
  {
    hide Execute;
    var i := Find(e.thread.queue, number);
    if i < |e.thread.queue| {
      var d := e.(thread := e.thread.(queue := e.thread.queue[..i] + e.thread.queue[i + 1..]),
                  log := e.log.(started := e.log.started + [number]));
      ExecuteSame(d, e.thread.queue[i], stamp);
    }
  }

  /** A call scheduled is admitted once: run at once, or queued. */
  lemma ScheduleAdmits(e: End, job: Job, stamp: nat, n: nat)
    requires e.remote.Some?
    ensures Schedule(e, job, stamp).log.got == e.log.got
    ensures Admitted(Schedule(e, job, stamp).log, n) == Admitted(e.log, n) + if job.number == n then 1 else 0
  {
    hide Execute, Run, Times;
    ExecuteSame(Inlined(e, job.number), job, stamp);
    RunSame(Enqueue(e, job), job.number, stamp);
    TimesOne(e.log.inlined, job.number, n);
    TimesOne(e.log.queued, job.number, n);
  }

  lemma AcceptAdmits(e: End, f: Frame, stamp: nat, n: nat)
    requires f.Request? && e.remote.Some? && !Accept(e, f, f.id, f.path, f.op, f.args, stamp).1
    ensures var d := Accept(e, f, f.id, f.path, f.op, f.args, stamp).0;
      d.log.got == e.log.got + [f] && Admitted(d.log, n) == Admitted(e.log, n) + if f.id.number == n then 1 else 0
  {
    hide Schedule, TakeArgs, Acceptable, Times;
    var business := IsBusiness(e.exports, f.op);
    var taken := Taken(e, f, f.id.number, TakeArgs(e, f.op, f.args));
    ScheduleAdmits(Begin(taken, business), Job(f.id.number, f.path, f.op, business), stamp, n);
    TimesOne(e.log.refused, f.id.number, n);
  }

  /** A frame received is a call admitted once, or none. */
  lemma ReceiveAdmits(e: End, f: Frame, stamp: nat)
    requires AllAdmitted(e.log) && !Receive(e, f, stamp).1
    ensures AllAdmitted(Receive(e, f, stamp).0.log)
  {
    var d := Receive(e, f, stamp).0;
    forall n: nat ensures Admitted(d.log, n) == Total(Asked(n), d.log.got) {
      assert Admitted(e.log, n) == Total(Asked(n), e.log.got);
      TotalOne(Asked(n), e.log.got, f);
      hide Accept, Take, Total, Times, AllAdmitted;
      if f.Request? { AcceptAdmits(e, f, stamp, n); }
    }
  }

  lemma SameAdmitted(log: Log, later: Log)
    requires AllAdmitted(log) && SameCalls(log, later)
    ensures AllAdmitted(later)
  {
    forall n: nat ensures Admitted(later, n) == Total(Asked(n), later.got) {
      assert Admitted(log, n) == Total(Asked(n), log.got);
    }
  }

  /** Nothing this side does admits a call. */
  lemma PerformSame(e: End, act: Act, stamp: nat)
    requires Enabled(e, act)
    ensures SameCalls(e.log, Perform(e, act, stamp).log)
  {
    hide Run, Respond, GiveBack, Prepare, OperationOf, RequestOf;
    match act
    case Ask(want, items, encodes, sound, sync, path) =>
    case Answering(answer) =>
      RespondSame(Pop(e), Top(e).value.number, Top(e).value.path, Top(e).value.business, answer);
    case Micro => RunSame(e.(thread := e.thread.(micro := e.thread.micro[1..])), e.thread.micro[0], stamp);
    case Drain => if e.thread.queue != [] { RunSame(e, e.thread.queue[0].number, stamp); }
    case Report(i) =>
      var a := e.thread.awaiting[i];
      RespondSame(e.(thread := e.thread.(awaiting := e.thread.awaiting[..i] + e.thread.awaiting[i + 1..])),
                  a.number, a.path, a.business, e.exports.futures[a.future].answer);
    case Wake =>
    case Settle(id, answer) =>
    case Collect(k) =>
    case Free(k) =>
  }

  lemma PerformAdmits(e: End, act: Act, stamp: nat)
    requires AllAdmitted(e.log) && Enabled(e, act)
    ensures AllAdmitted(Perform(e, act, stamp).log)
  {
    hide *;
    PerformSame(e, act, stamp);
    SameAdmitted(e.log, Perform(e, act, stamp).log);
  }
}
