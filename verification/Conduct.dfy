/** What a session sends, over every run of one: each request is a call made, each reply tells what
    the call it answers came to. */
module Conduct {
  import opened Options
  import opened Wire
  import opened References
  import opened Endpoint
  import opened Invariant
  import opened Encodable
  import opened Arrivals
  import opened Requests
  import opened Replies
  import opened Growth
  import opened Protocol
  import Network

  // ── A frame heard ───────────────────────────────────────────────

  /** A call taken, before it is started: it is a call as it came. */
  lemma TakenTraced(e: End, f: Frame, k: Taking)
    requires Traced(e) && ExportsOk(e.exports) && f.Request? && Acceptable(e, f.id, f.path, f.op)
    ensures var d := Taken(e, f, f.id.number, k);
      Traced(d) && IsCall(d, f.id.number, f) && d.exports == e.exports
      && Business(d.exports, f.op) == IsBusiness(e.exports, f.op)
  {
    var d := Taken(e, f, f.id.number, k);
    assert d.log.got[..|e.log.got|] == e.log.got;
    hide RunOk, JobOk, AwaitOk;
    TracedOf(e, d);
  }

  lemma BeginTraced(e: End, business: bool, n: nat, q: Frame)
    requires Traced(e) && IsCall(e, n, q)
    ensures var d := Begin(e, business);
      Traced(d) && IsCall(d, n, q) && Business(d.exports, q.op) == Business(e.exports, q.op)
  {
    hide RunOk, JobOk, AwaitOk;
    TracedOf(e, Begin(e, business));
  }

  /** What a reply tells does not depend on the count of calls in progress, nor on the logs. */
  lemma BegunTells(e: End, d: End, y: Exports, path: Path, business: bool, answer: Answer, f: Frame)
    requires d.exports == e.exports.(active := d.exports.active) && d.imports.records == e.imports.records
    requires d.plugins == e.plugins
    ensures Tells(d, y, path, business, answer, f) == Tells(e, y, path, business, answer, f)
  {
    SameOut(e.exports, d.exports);
    var ctx := Context(path, business, e.plugins);
    if answer.Value? {
      SameEncode(e.exports, d.exports, e.imports.records, answer.items, ctx);
      SameAllOut(e.exports, d.exports, y, answer.items);
    }
    hide CanEncode, AllOut, AllStand;
  }

  lemma SameOut(x: Exports, z: Exports)
    requires z == x.(active := z.active)
    ensures forall v: Local :: IsOut(z, v) == IsOut(x, v) && GrantsFor(z, v) == GrantsFor(x, v)
  {}

  lemma SameEncode(x: Exports, z: Exports, records: seq<Record>, items: seq<Item>, ctx: Context)
    requires z == x.(active := z.active)
    ensures CanEncode(z, records, items, ctx) == CanEncode(x, records, items, ctx)
    ensures Newcomers(z, items) == Newcomers(x, items)
  {
    SameOut(x, z);
    hide IsOut, GrantsFor;
    assert Newcomers(z, items) == Newcomers(x, items);
    forall it <- items ensures CanGo(z, records, items, it) == CanGo(x, records, items, it) {}
  }

  lemma SameAllOut(x: Exports, z: Exports, y: Exports, items: seq<Item>)
    requires z == x.(active := z.active)
    ensures AllOut(z, y, items) == AllOut(x, y, items)
  {
    SameOut(x, z);
    SameEncode(x, z, [], items, Context([], false, false));
    hide IsOut, GrantsFor, Newcomers;
  }

  /** A reply to an await just heard is told of the state before. */
  lemma BegunPromise(e: End, d: End, y: Exports, q: Frame, f: Frame)
    requires q.Request? && q.op.Await? && TellsPromise(d, y, q, f)
    requires d.exports == e.exports.(active := d.exports.active) && d.imports.records == e.imports.records
    requires d.plugins == e.plugins && d.thread.stack == e.thread.stack && d.endpoint == e.endpoint
    ensures TellsPromise(e, y, q, f)
  {
    if HasSettled(e.exports, q.op.reference) {
      BegunTells(e, d, y, PathOf(q), Business(e.exports, q.op), e.exports.futures[q.op.reference].answer, f);
      hide Tells;
    }
  }

  predicate IsReply(f: Frame, q: Frame)
    requires q.Request?
  {
    (f.Return? || f.Throw?) && f.id == q.id
  }

  lemma ScheduleBegins(e: End, q: Frame, job: Job, stamp: nat) returns (reply: Option<Frame>)
    requires Traced(e) && ExportsOk(e.exports) && e.remote.Some? && Listening(e)
    requires q.Request? && IsCall(e, q.id.number, q) && IsJob(e.exports, q, job)
    requires IsWaiting(e.thread.stack) ==> e.thread.queue == []
    ensures var d := Schedule(e, job, stamp);
      && Traced(d) && d.log.got == e.log.got
      && d.log.sent == e.log.sent + (if reply.Some? then [reply.value] else [])
      && (reply.Some? ==> IsReply(reply.value, q) && TellsPromise(e, d.exports, q, reply.value))
  {
    var d := Schedule(e, job, stamp);
    if job.op.Invoke? && job.op.target == "" && job.op.name in e.inline {
      var noted := Inlined(e, job.number);
      reply := StartBegins(e, noted, q, job, stamp);
    } else if IsWaiting(e.thread.stack) {
      Steps.RunQueued(e, job, stamp);
      var picked := Account.FirstTaken(Enqueue(e, job));
      reply := StartBegins(e, picked, q, job, stamp);
    } else {
      reply := None;
      assert e.log.sent + [] == e.log.sent;
      IsThat(e, q.id.number, q);
      NewJob(e, d, q, job);
    }
  }

  lemma NewJob(e: End, d: End, q: Frame, job: Job)
    requires Traced(e) && q.Request? && IsCall(e, q.id.number, q) && IsJob(e.exports, q, job)
    requires d == e.(log := d.log, thread := e.thread.(queue := e.thread.queue + [job], micro := d.thread.micro))
    requires d.log.got == e.log.got
    ensures Traced(d)
  {
    IsThat(e, q.id.number, q);
    SameCall(e, d, q.id.number, q);
    assert JobOk(d, job);
    hide RunOk, JobOk, AwaitOk, IsCall, CallIn;
    TracedOf(e, d);
  }

  /** Started with its log noted, or taken from an empty queue. */
  lemma StartBegins(e: End, noted: End, q: Frame, job: Job, stamp: nat) returns (reply: Option<Frame>)
    requires Traced(e) && ExportsOk(e.exports) && e.remote.Some? && q.Request? && IsCall(e, q.id.number, q)
    requires IsJob(e.exports, q, job) && noted.thread == e.thread && noted == e.(log := noted.log)
    requires noted.log.got == e.log.got && noted.log.sent == e.log.sent
    ensures var d := Execute(noted, job, stamp);
      && Traced(d) && d.log.got == e.log.got
      && d.log.sent == e.log.sent + (if reply.Some? then [reply.value] else [])
      && (reply.Some? ==> IsReply(reply.value, q) && TellsPromise(e, d.exports, q, reply.value))
  {
    SameCall(e, noted, q.id.number, q);
    PickedTraced(e, noted);
    reply := ExecuteBegins(noted, q, job, stamp);
    ExecuteGrows(noted, job, stamp);
    hide Execute, IsCall, CallIn, ExportsOk, Traced, TellsPromise;
    BeginsLater(noted, Execute(noted, job, stamp), q, reply);
    BeginsTraced(noted, Execute(noted, job, stamp), q, reply);
    SameTells(e, noted, Execute(noted, job, stamp).exports, q, reply);
  }

  lemma AcceptSends(e: End, f: Frame, stamp: nat) returns (sent: seq<Frame>)
    requires Traced(e) && ExportsOk(e.exports) && ImportsOk(e.imports) && e.remote.Some? && Listening(e) && f.Request?
    requires (IsWaiting(e.thread.stack) ==> e.thread.queue == []) && !Receive(e, f, stamp).1
    ensures Sends(e, Heard(f), Receive(e, f, stamp).0, sent) && Traced(Receive(e, f, stamp).0)
  {
    var k := TakeArgs(e, f.op, f.args);
    TakenTraced(e, f, k);
    ArgsSend(e, f);
    hide TakeArgs, Acceptable, Schedule, IsCall, ExportsOk, Traced, Sends, ArgsRefused;
    if k.refused {
      RefusedTraced(Taken(e, f, f.id.number, k), f.id);
      sent := RefusedSends(e, f, k);
    } else {
      sent := AdmittedSends(e, f, k, stamp);
    }
  }

  lemma RefusedSends(e: End, f: Frame, k: Taking) returns (sent: seq<Frame>)
    requires f.Request? && (forall r <- k.releases :: r.Release?) && ArgsRefused(f, e.host)
    ensures Sends(e, Heard(f), Refuse(Taken(e, f, f.id.number, k), f.id), sent)
  {
    sent := k.releases + [Throw(f.id)];
    var d := Refuse(Taken(e, f, f.id.number, k), f.id);
    hide ArgsRefused, TellsPromise, CallIn;
    assert Explained(e, Heard(f), d.exports, Throw(f.id));
    hide Explained;
    assert d.log.sent == e.log.sent + sent;
  }

  lemma AdmittedSends(e: End, f: Frame, k: Taking, stamp: nat) returns (sent: seq<Frame>)
    requires ExportsOk(e.exports) && e.remote.Some? && Listening(e) && f.Request? && f.id.endpoint == e.remote.value
    requires IsWaiting(e.thread.stack) ==> e.thread.queue == []
    requires (forall r <- k.releases :: r.Release?) && (f.op.Await? ==> k.imports == e.imports)
    requires var d := Taken(e, f, f.id.number, k);
      Traced(d) && IsCall(d, f.id.number, f) && Business(d.exports, f.op) == IsBusiness(e.exports, f.op)
    ensures var business := IsBusiness(e.exports, f.op);
      var d := Schedule(Begin(Taken(e, f, f.id.number, k), business), Job(f.id.number, f.path, f.op, business), stamp);
      Sends(e, Heard(f), d, sent) && Traced(d)
  {
    var taken, business := Taken(e, f, f.id.number, k), IsBusiness(e.exports, f.op);
    var begun, job := Begin(taken, business), Job(f.id.number, f.path, f.op, business);
    BeginTraced(taken, business, f.id.number, f);
    BegunOk(taken, business);
    hide Schedule, IsCall, ExportsOk, Traced, Business, IsBusiness, TellsPromise, Begin;
    var reply := ScheduleBegins(begun, f, job, stamp);
    var d := Schedule(begun, job, stamp);
    if reply.Some? { AwaitTells(e, f, k, begun, d.exports, reply.value); }
    sent := ReplySends(e, f, d, k.releases, reply);
  }

  lemma ReplySends(e: End, f: Frame, d: End, releases: seq<Frame>, reply: Option<Frame>) returns (sent: seq<Frame>)
    requires forall r <- releases :: r.Release?
    requires d.log.sent == (e.log.sent + releases) + (if reply.Some? then [reply.value] else [])
    requires reply.Some? ==>
      (reply.value.Return? || reply.value.Throw?) && Explained(e, Heard(f), d.exports, reply.value)
    ensures Sends(e, Heard(f), d, sent)
  {
    hide Explained;
    sent := releases + if reply.Some? then [reply.value] else [];
    assert d.log.sent == e.log.sent + sent;
  }

  lemma BegunOk(e: End, business: bool)
    requires ExportsOk(e.exports)
    ensures ExportsOk(Begin(e, business).exports) && Begin(e, business) == e.(exports := Begin(e, business).exports)
    ensures Begin(e, business).exports == e.exports.(active := Begin(e, business).exports.active)
  {}

  /** What taking a call's arguments sends, and when they are refused. */
  lemma ArgsSend(e: End, f: Frame)
    requires ImportsOk(e.imports) && f.Request? && !TakeArgs(e, f.op, f.args).fault
    ensures var k := TakeArgs(e, f.op, f.args);
      && (forall r <- k.releases :: r.Release?) && (k.refused <==> ArgsRefused(f, e.host))
      && (f.op.Await? ==> k.imports == e.imports)
  {
    if !f.op.Await? && !f.op.Get? {
      Steps.TakeReleases(e, f.args);
      TakenExactly(e.exports, e.imports, f.args, e.host);
      hide RefsSound, ForOthers, Take, ImportsOk;
    }
  }

  lemma RefusedTraced(e: End, id: CallId)
    requires Traced(e) && e.remote.Some?
    ensures Traced(Refuse(e, id))
  {
    hide RunOk, JobOk, AwaitOk;
    TracedOf(e, Refuse(e, id));
  }

  lemma AwaitTells(e: End, f: Frame, k: Taking, begun: End, y: Exports, reply: Frame)
    requires f.Request? && IsReply(reply, f) && TellsPromise(begun, y, f, reply)
    requires f.op.Await? ==> k.imports == e.imports
    requires begun == Taken(e, f, f.id.number, k).(exports := begun.exports)
    requires begun.exports == e.exports.(active := begun.exports.active)
    ensures Explained(e, Heard(f), y, reply)
  {
    BegunPromise(e, begun, y, f, reply);
    hide TellsPromise;
  }

  lemma OtherSends(e: End, f: Frame, stamp: nat) returns (sent: seq<Frame>)
    requires Traced(e) && ExportsOk(e.exports) && ImportsOk(e.imports) && e.remote.Some? && !f.Request?
    requires !Receive(e, f, stamp).1
    ensures Sends(e, Heard(f), Receive(e, f, stamp).0, sent) && Traced(Receive(e, f, stamp).0)
  {
    var d := Receive(e, f, stamp).0;
    var payload := if f.Return? then f.value else Payload([], true);
    sent := if f.Return? || f.Throw? then Take(e.exports, e.imports, payload, e.host).releases else [];
    Steps.TakeReleases(e, payload);
    assert e.log.sent + [] == e.log.sent;
    assert d.log.got[..|e.log.got|] == e.log.got;
    hide Take, RunOk, JobOk, AwaitOk;
    TracedOf(e, d);
  }

  lemma GreetTraced(e: End, f: Frame, stamp: nat)
    requires Sound(e, stamp) && f.Hello? && !Receive(e, f, stamp).1
    ensures var d := Receive(e, f, stamp).0; Traced(d) && d.log.sent == e.log.sent
  {}

  /** Whatever is heard, a reply sent at once has a reason. */
  lemma ReceiveSends(e: End, f: Frame, stamp: nat) returns (sent: seq<Frame>)
    requires Sound(e, stamp) && Traced(e) && Listening(e) && !Receive(e, f, stamp).1
    ensures Sends(e, Heard(f), Receive(e, f, stamp).0, sent) && Traced(Receive(e, f, stamp).0)
  {
    Network.SoundTables(e, stamp);
    if f.Hello? {
      GreetTraced(e, f, stamp);
      hide Sound, Receive, Traced, ExportsOk, ImportsOk;
      SendsNothing(e, Heard(f), Receive(e, f, stamp).0);
      sent := [];
    } else {
      PumpingQueue(e, stamp);
      NotGreeted(e, f, stamp);
      hide Sound, Receive, Traced, ExportsOk, ImportsOk;
      if f.Request? { sent := AcceptSends(e, f, stamp); } else { sent := OtherSends(e, f, stamp); }
    }
  }

  lemma NotGreeted(e: End, f: Frame, stamp: nat)
    requires !f.Hello? && !Receive(e, f, stamp).1
    ensures e.remote.Some?
  {}

  lemma PumpingQueue(e: End, stamp: nat)
    requires Sound(e, stamp) && Listening(e)
    ensures IsWaiting(e.thread.stack) ==> e.thread.queue == []
  {
    assert e.thread.stack != [] ==> Pumping(e.thread.stack);
  }

  // ── Over a run ──────────────────────────────────────────────────

  lemma HappenSends(o: Solo, event: Event) returns (sent: seq<Frame>)
    requires Sound(o.end, o.clock) && Traced(o.end)
    ensures Sends(o.end, event, Happen(o, event).end, sent) && Traced(Happen(o, event).end)
  {
    Network.SoundTables(o.end, o.clock);
    hide Sound, Traced, Perform, Receive, Enabled, Listening, Sends;
    sent := [];
    if !o.closed {
      match event
      case Did(act) =>
        if Enabled(o.end, act) { sent := PerformSends(o.end, act, o.clock); return; }
      case Heard(f) =>
        if Listening(o.end) && !Receive(o.end, f, o.clock).1 { sent := ReceiveSends(o.end, f, o.clock); return; }
    }
    FaultSendsNothing(o, event);
  }

  lemma FaultSendsNothing(o: Solo, event: Event)
    requires o.closed || (event.Did? && !Enabled(o.end, event.act))
      || (event.Heard? && (!Listening(o.end) || Receive(o.end, event.frame, o.clock).1))
    ensures Sends(o.end, event, Happen(o, event).end, []) && Happen(o, event).end.log == o.end.log
    ensures Traced(o.end) ==> Traced(Happen(o, event).end)
  {
    hide Enabled, Listening, Perform, Traced;
    SendsNothing(o.end, event, o.end);
    hide Sends;
    assert Happen(o, event).end == o.end;
  }

  lemma StartTraced(endpoint: nat, host: bool, inline: set<string>)
    ensures Traced(Start(endpoint, host, inline))
  {}

  lemma {:induction false} LiveTraced(endpoint: nat, host: bool, inline: set<string>, events: seq<Event>)
    ensures Traced(Live(Fresh(endpoint, host, inline), events).end)
    decreases |events|
  {
    hide Traced, Happen;
    if events == [] {
      StartTraced(endpoint, host, inline);
    } else {
      LiveTraced(endpoint, host, inline, events[..|events| - 1]);
      LiveSound(endpoint, host, inline, events[..|events| - 1]);
      var sent := HappenSends(Live(Fresh(endpoint, host, inline), events[..|events| - 1]), events[|events| - 1]);
    }
  }

  /** The frame at `k` of those sent was sent at the event `i`. */
  ghost predicate SentAt(start: Solo, events: seq<Event>, i: nat, k: nat) {
    && i < |events|
    && |Live(start, events[..i]).end.log.sent| <= k < |Live(start, events[..i + 1]).end.log.sent|
  }

  /** Frames are sent at some event, and stay as they were sent. */
  ghost predicate SentAs(start: Solo, events: seq<Event>, i: nat, k: nat, f: Frame) {
    SentAt(start, events, i, k) &&
    var o, d := Live(start, events[..i]), Live(start, events[..i + 1]);
    d == Happen(o, events[i]) && d.end.log.sent[k] == f && Fair(o.end, events[i], d.end.exports, f)
  }

  lemma SentEarlier(start: Solo, events: seq<Event>, i: nat, k: nat, f: Frame)
    requires events != [] && SentAs(start, events[..|events| - 1], i, k, f)
    ensures SentAs(start, events, i, k, f)
  {
    hide Live, Happen, Fair;
    var front := events[..|events| - 1];
    assert events[..i] == front[..i] && events[..i + 1] == front[..i + 1];
  }

  lemma SentNow(start: Solo, events: seq<Event>, sent: seq<Frame>, k: nat)
    requires events != []
    requires var o := Live(start, events[..|events| - 1]);
      && Sends(o.end, events[|events| - 1], Happen(o, events[|events| - 1]).end, sent)
      && |o.end.log.sent| <= k < |Happen(o, events[|events| - 1]).end.log.sent|
    ensures k < |Live(start, events).end.log.sent|
    ensures SentAs(start, events, |events| - 1, k, Live(start, events).end.log.sent[k])
  {
    hide Live, Happen, Fair;
    LiveMore(start, events);
    var o, d := Live(start, events[..|events| - 1]), Live(start, events);
    assert events[..|events|] == events;
    assert d.end.log.sent[k] == sent[k - |o.end.log.sent|];
    assert sent[k - |o.end.log.sent|] in sent;
  }

  lemma {:induction false} FindSent(endpoint: nat, host: bool, inline: set<string>, events: seq<Event>, k: nat)
    returns (i: nat)
    requires 1 <= k < |Live(Fresh(endpoint, host, inline), events).end.log.sent|
    ensures var start := Fresh(endpoint, host, inline);
      SentAs(start, events, i, k, Live(start, events).end.log.sent[k])
    decreases |events|
  {
    hide *;
    var start := Fresh(endpoint, host, inline);
    if events == [] {
      OnlyHello(endpoint, host, inline);
    } else {
      var front, event := events[..|events| - 1], events[|events| - 1];
      LiveSound(endpoint, host, inline, front);
      LiveTraced(endpoint, host, inline, front);
      LiveMore(start, events);
      var sent := HappenSends(Live(start, front), event);
      SendsAfter(Live(start, front).end, event, Live(start, events).end, sent);
      if k < |Live(start, front).end.log.sent| {
        i := FindSent(endpoint, host, inline, front, k);
        SentEarlier(start, events, i, k, Live(start, front).end.log.sent[k]);
      } else {
        i := |front|;
        SentNow(start, events, sent, k);
      }
    }
  }

  lemma SendsAfter(e: End, event: Event, d: End, sent: seq<Frame>)
    requires Sends(e, event, d, sent)
    ensures d.log.sent == e.log.sent + sent
  {}

  lemma OnlyHello(endpoint: nat, host: bool, inline: set<string>)
    ensures |Live(Fresh(endpoint, host, inline), []).end.log.sent| == 1
  {}

  lemma LiveMore(start: Solo, events: seq<Event>)
    requires events != []
    ensures Live(start, events) == Happen(Live(start, events[..|events| - 1]), events[|events| - 1])
  {}

  /** The reply at `k` tells what came of its call: the moment it was sent, the call ran and this is
      its result, or it was of a Promise that had settled, or one of the two ways to fail. */
  ghost predicate TellsWhatCame(start: Solo, events: seq<Event>, i: nat, k: nat, f: Frame)
    requires f.Return? || f.Throw?
  {
    SentAt(start, events, i, k) &&
    Explained(Live(start, events[..i]).end, events[i], Live(start, events[..i + 1]).end.exports, f)
  }

  /** Over every run, each reply is a return exactly when what the call or its Promise came to is a
      value that can be sent, with that value's references and no other; else it is a throw. */
  lemma RepliesTellWhatCame(endpoint: nat, host: bool, inline: set<string>, events: seq<Event>, k: nat)
    requires k < |Live(Fresh(endpoint, host, inline), events).end.log.sent|
    requires var f := Live(Fresh(endpoint, host, inline), events).end.log.sent[k]; f.Return? || f.Throw?
    ensures var start := Fresh(endpoint, host, inline);
      exists i: nat :: TellsWhatCame(start, events, i, k, Live(start, events).end.log.sent[k])
  {
    LiveSound(endpoint, host, inline, events);
    hide Live;
    var i := FindSent(endpoint, host, inline, events, k);
    assert TellsWhatCame(Fresh(endpoint, host, inline), events, i, k,
      Live(Fresh(endpoint, host, inline), events).end.log.sent[k]);
  }

  // ── Calls of this side's ────────────────────────────────────────

  /** Code runs now that can call, in the calls of `path`: from the event loop, as code started
      before goes on, or in the call on top of the stack. */
  ghost predicate CodeRuns(o: Solo, path: Path) {
    && !o.closed && o.end.log.got != []
    && if o.end.thread.stack == [] then path == [] || path in o.end.thread.contexts
       else var top := o.end.thread.stack[|o.end.thread.stack| - 1]; top.Running? && top.path == path
  }

  /** A call is sent exactly when code that makes it runs and it can be sent: one request, of what is
      called, in the calls the code is of, with its arguments. Else nothing is sent or granted. */
  lemma AsksExactly(endpoint: nat, host: bool, inline: set<string>, events: seq<Event>, act: Act)
    returns (sent: seq<Frame>)
    requires act.Ask?
    ensures var start := Fresh(endpoint, host, inline);
      var o, d := Live(start, events), Live(start, events + [Did(act)]);
      && |sent| == (if CodeRuns(o, act.path) && CanAsk(o.end, act.want, act.items, act.encodes, act.path) then 1 else 0)
      && d.end.log.sent == o.end.log.sent + sent && d.closed == o.closed
      && (sent != [] ==> AsksFor(o, d, act, sent[0]))
      && (sent == [] ==> d.end.exports.entries == o.end.exports.entries && d.end.pending == o.end.pending)
  {
    var o := Live(Fresh(endpoint, host, inline), events);
    assert (events + [Did(act)])[..|events|] == events;
    LiveSound(endpoint, host, inline, events);
    Network.SoundTables(o.end, o.clock);
    GreetedGot(o.end, o.clock);
    hide Live, Sound, ExportsOk, AsksFor, Happen;
    sent := HappenAsks(o, act);
  }

  /** The request `f` is of the call `act`, sent between these moments. */
  ghost predicate AsksFor(o: Solo, d: Solo, act: Act, f: Frame)
    requires act.Ask?
  {
    f.Request? && Asks(o.end, d.end, act.want, act.items, act.sound, act.sync, act.path, o.clock, f)
  }

  lemma HappenAsks(o: Solo, act: Act) returns (sent: seq<Frame>)
    requires act.Ask? && ExportsOk(o.end.exports) && (o.end.remote.Some? <==> o.end.log.got != [])
    ensures var d := Happen(o, Did(act));
      && |sent| == (if CodeRuns(o, act.path) && CanAsk(o.end, act.want, act.items, act.encodes, act.path) then 1 else 0)
      && d.end.log.sent == o.end.log.sent + sent && d.closed == o.closed
      && (sent != [] ==> AsksFor(o, d, act, sent[0]))
      && (sent == [] ==> d.end.exports.entries == o.end.exports.entries && d.end.pending == o.end.pending)
  {
    hide AskFor, CanAsk, Arguments, IsOf, IsPath, WaitsFor, ExportsOk;
    assert o.end.log.sent + [] == o.end.log.sent;
    if CodeRuns(o, act.path) {
      sent := AskExactly(o.end, act.want, act.items, act.encodes, act.sound, act.sync, act.path, o.clock);
      if sent != [] { assert sent == [sent[0]]; }
    } else {
      sent := [];
    }
  }

  lemma GreetedGot(e: End, clock: nat)
    requires Sound(e, clock)
    ensures e.remote.Some? <==> e.log.got != []
  {}

  /** The request at `k` was sent at the event `i`, which is the call that it says. */
  ghost predicate AskedAt(start: Solo, events: seq<Event>, i: nat, k: nat, f: Frame) {
    && i < |events| && events[i].Did? && events[i].act.Ask?
    && var o, act := Live(start, events[..i]), events[i].act;
       && k == |o.end.log.sent| && CodeRuns(o, act.path)
       && CanAsk(o.end, act.want, act.items, act.encodes, act.path)
       && AsksFor(o, Live(start, events[..i + 1]), act, f)
  }

  /** Over every run, each request sent is of a call made: of the service and the method called, or
      of the function, object or Promise that a proxy then live and not given back stands for. */
  lemma RequestsAreAsked(endpoint: nat, host: bool, inline: set<string>, events: seq<Event>, k: nat)
    requires k < |Live(Fresh(endpoint, host, inline), events).end.log.sent|
    requires Live(Fresh(endpoint, host, inline), events).end.log.sent[k].Request?
    ensures var start := Fresh(endpoint, host, inline);
      exists i: nat :: AskedAt(start, events, i, k, Live(start, events).end.log.sent[k])
  {
    hide *;
    var start := Fresh(endpoint, host, inline);
    LiveSound(endpoint, host, inline, events);
    GreetedFirst(Live(start, events).end, Live(start, events).clock);
    var f := Live(start, events).end.log.sent[k];
    var i := FindSent(endpoint, host, inline, events, k);
    OfAnAsk(start, events, i, k, f);
    var sent := AsksExactly(endpoint, host, inline, events[..i], events[i].act);
    assert events[..i + 1] == events[..i] + [events[i]];
    ThatAsk(start, events, i, k, f, sent);
  }

  lemma OfAnAsk(start: Solo, events: seq<Event>, i: nat, k: nat, f: Frame)
    requires SentAs(start, events, i, k, f) && f.Request?
    ensures i < |events| && events[i].Did? && events[i].act.Ask?
  {
    hide Live, Happen, Explained;
  }

  lemma ThatAsk(start: Solo, events: seq<Event>, i: nat, k: nat, f: Frame, sent: seq<Frame>)
    requires SentAs(start, events, i, k, f) && events[i].Did? && events[i].act.Ask?
    requires var o, d, act := Live(start, events[..i]), Live(start, events[..i + 1]), events[i].act;
      && |sent| == (if CodeRuns(o, act.path) && CanAsk(o.end, act.want, act.items, act.encodes, act.path) then 1 else 0)
      && d.end.log.sent == o.end.log.sent + sent && (sent != [] ==> AsksFor(o, d, act, sent[0]))
    ensures AskedAt(start, events, i, k, f)
  {
    hide Live, Happen, Fair, CodeRuns, CanAsk, AsksFor;
  }

  lemma GreetedFirst(e: End, clock: nat)
    requires Sound(e, clock)
    ensures e.log.sent != [] && e.log.sent[0].Hello?
  {}

  // ── When calls are answered ─────────────────────────────────────

  lemma BusyGreeted(e: End, clock: nat)
    requires Sound(e, clock) && (e.thread.stack != [] || e.thread.awaiting != [])
    ensures e.remote.Some?
  {}

  /** From `o` to `d` one frame is sent, the reply to `n`, which tells `answer`. */
  ghost predicate Replies1(o: End, d: End, n: nat, path: Path, business: bool, answer: Answer, f: Frame) {
    && d.log.sent == o.log.sent + [f] && (f.Return? || f.Throw?) && f.id.number == n
    && Tells(o, d.exports, path, business, answer, f)
  }

  predicate IsRunning(o: Solo) {
    !o.closed && o.end.thread.stack != [] && o.end.thread.stack[|o.end.thread.stack| - 1].Running?
  }

  lemma HappenAnswers(o: Solo, answer: Answer) returns (f: Frame)
    requires ExportsOk(o.end.exports) && (o.end.thread.stack != [] ==> o.end.remote.Some?)
    ensures var d, stack := Happen(o, Did(Answering(answer))), o.end.thread.stack;
      if IsRunning(o) then
        && d.end.thread.stack == stack[..|stack| - 1]
        && var top := stack[|stack| - 1];
           Replies1(o.end, d.end, top.number, top.path, top.business, answer, f)
      else d == o
  {
    hide ExportsOk, Respond, Tells;
    f := Hello(0, 0, false);
    if IsRunning(o) {
      var top := Top(o.end).value;
      f := RespondTells(Pop(o.end), top.number, top.path, top.business, answer);
      PoppedTells(o.end, Happen(o, Did(Answering(answer))).end.exports, top.path, top.business, answer, f);
    }
  }

  /** The call on top of the stack returns or throws: exactly one frame is sent, which tells it, and
      the call is done. Nothing happens when none runs. */
  lemma AnswersExactly(endpoint: nat, host: bool, inline: set<string>, events: seq<Event>, answer: Answer)
    returns (f: Frame)
    ensures var start := Fresh(endpoint, host, inline);
      var o, d := Live(start, events), Live(start, events + [Did(Answering(answer))]);
      if IsRunning(o) then
        var stack := o.end.thread.stack;
        && d.end.thread.stack == stack[..|stack| - 1]
        && var top := stack[|stack| - 1];
           Replies1(o.end, d.end, top.number, top.path, top.business, answer, f)
      else d == o
  {
    var start := Fresh(endpoint, host, inline);
    assert (events + [Did(Answering(answer))])[..|events|] == events;
    LiveSound(endpoint, host, inline, events);
    var o := Live(start, events);
    Network.SoundTables(o.end, o.clock);
    if o.end.thread.stack != [] { BusyGreeted(o.end, o.clock); }
    hide Live, Happen, Sound, ExportsOk, Replies1;
    f := HappenAnswers(o, answer);
  }

  /** The await at `i` can be answered: its Promise has settled, and nothing runs or waits. */
  predicate CanReport(o: Solo, i: nat) {
    && !o.closed && o.end.thread.stack == [] && i < |o.end.thread.awaiting|
    && HasSettled(o.end.exports, o.end.thread.awaiting[i].future)
  }

  lemma HappenReports(o: Solo, i: nat) returns (f: Frame)
    requires ExportsOk(o.end.exports) && (o.end.thread.awaiting != [] ==> o.end.remote.Some?)
    ensures var d, awaiting := Happen(o, Did(Report(i))), o.end.thread.awaiting;
      if CanReport(o, i) then
        && d.end.thread.awaiting == awaiting[..i] + awaiting[i + 1..]
        && var w := awaiting[i];
           Replies1(o.end, d.end, w.number, w.path, w.business, o.end.exports.futures[w.future].answer, f)
      else d == o
  {
    hide ExportsOk, Respond, Tells;
    f := Hello(0, 0, false);
    if CanReport(o, i) {
      var w, awaiting := o.end.thread.awaiting[i], o.end.thread.awaiting;
      var picked := o.end.(thread := o.end.thread.(awaiting := awaiting[..i] + awaiting[i + 1..]));
      var answer := o.end.exports.futures[w.future].answer;
      f := RespondTells(picked, w.number, w.path, w.business, answer);
      PickedTells(o.end, picked, Happen(o, Did(Report(i))).end.exports, w.path, w.business, answer, f);
    }
  }

  /** A Promise that settled answers an await kept for it: exactly one frame is sent, which tells what
      it settled to. */
  lemma ReportsExactly(endpoint: nat, host: bool, inline: set<string>, events: seq<Event>, i: nat)
    returns (f: Frame)
    ensures var start := Fresh(endpoint, host, inline);
      var o, d := Live(start, events), Live(start, events + [Did(Report(i))]);
      if CanReport(o, i) then
        && d.end.thread.awaiting == o.end.thread.awaiting[..i] + o.end.thread.awaiting[i + 1..]
        && var w := o.end.thread.awaiting[i];
           Replies1(o.end, d.end, w.number, w.path, w.business, o.end.exports.futures[w.future].answer, f)
      else d == o
  {
    var start := Fresh(endpoint, host, inline);
    assert (events + [Did(Report(i))])[..|events|] == events;
    LiveSound(endpoint, host, inline, events);
    var o := Live(start, events);
    Network.SoundTables(o.end, o.clock);
    if o.end.thread.awaiting != [] { BusyGreeted(o.end, o.clock); }
    hide Live, Happen, Sound, ExportsOk, Replies1;
    f := HappenReports(o, i);
  }

  // ── References given back, and waits that end ───────────────────

  /** No call of this side's waits on top of the stack: other code can run. */
  predicate IsFree(o: Solo) {
    !o.closed && !(o.end.thread.stack != [] && o.end.thread.stack[|o.end.thread.stack| - 1].Waiting?)
  }

  /** `k` is given back with every grant it has: it is no proxy any more, and the others stay. */
  ghost predicate GivesBack(e: End, d: End, k: nat)
    requires k < |e.imports.records|
  {
    var r := e.imports.records[k];
    && d.log.sent == e.log.sent + [Release(r.id, r.grants)]
    && d.imports.records == e.imports.records[k := r.(released := true)]
    && (forall id: nat :: Proxies(e.imports, d.imports, id, k))
  }

  predicate Proxies(m: Imports, n: Imports, id: nat, k: nat) {
    Current(n, id) == if Current(m, id) == Some(k) then None else Current(m, id)
  }

  lemma HappenFrees(o: Solo, k: nat)
    requires ImportsOk(o.end.imports)
    ensures var d := Happen(o, Did(Free(k)));
      if IsFree(o) && k < |o.end.imports.records| && !o.end.imports.records[k].released then GivesBack(o.end, d.end, k)
      else d.end == o.end
  {
    assert o.end.log.sent + [] == o.end.log.sent;
  }

  /** A proxy released, or finalised, is given back once. */
  lemma FreesExactly(endpoint: nat, host: bool, inline: set<string>, events: seq<Event>, k: nat)
    ensures var start := Fresh(endpoint, host, inline);
      var o, d := Live(start, events), Live(start, events + [Did(Free(k))]);
      if IsFree(o) && k < |o.end.imports.records| && !o.end.imports.records[k].released then GivesBack(o.end, d.end, k)
      else d.end == o.end
  {
    assert (events + [Did(Free(k))])[..|events|] == events;
    LiveSound(endpoint, host, inline, events);
    var o := Live(Fresh(endpoint, host, inline), events);
    Network.SoundTables(o.end, o.clock);
    hide Live, Sound, ExportsOk, ImportsOk, GivesBack, Happen;
    HappenFrees(o, k);
  }

  /** A proxy collected is not used any more, and is held until it is given back. */
  lemma CollectsExactly(endpoint: nat, host: bool, inline: set<string>, events: seq<Event>, k: nat)
    ensures var start := Fresh(endpoint, host, inline);
      var o, d := Live(start, events), Live(start, events + [Did(Collect(k))]);
      var records := o.end.imports.records;
      if !o.closed && k < |records| then
        d.end == o.end.(imports := o.end.imports.(records := records[k := records[k].(live := false)]))
      else d == o
  {
    assert (events + [Did(Collect(k))])[..|events|] == events;
    hide Happen;
    HappenCollects(Live(Fresh(endpoint, host, inline), events), k);
  }

  lemma HappenCollects(o: Solo, k: nat)
    ensures var d, records := Happen(o, Did(Collect(k))), o.end.imports.records;
      if !o.closed && k < |records| then
        d.end == o.end.(imports := o.end.imports.(records := records[k := records[k].(live := false)]))
      else d == o
  {}

  /** The call waited for on top of the stack is answered, and the queue was drained. */
  predicate IsDone(o: Solo) {
    !o.closed && o.end.thread.stack != [] &&
    var top := o.end.thread.stack[|o.end.thread.stack| - 1];
    top.Waiting? && !top.draining && top.number !in o.end.pending
  }

  /** The wait is over; when it was the last, each call still queued gets a microtask. */
  ghost predicate GoesOn(e: End, d: End)
    requires e.thread.stack != []
  {
    var th := e.thread;
    var below := th.stack[..|th.stack| - 1];
    var waits := exists i :: 0 <= i < |below| && below[i].Waiting?;
    d == e.(thread := th.(stack := below, micro := th.micro + if waits then [] else Numbers(th.queue)))
  }

  lemma HappenWakes(o: Solo)
    ensures var d := Happen(o, Did(Wake)); if IsDone(o) then GoesOn(o.end, d.end) else d == o
  {
    assert o.end.thread.micro + [] == o.end.thread.micro;
  }

  /** A synchronous call goes on exactly when it has drained the queue and is answered. */
  lemma WakesExactly(endpoint: nat, host: bool, inline: set<string>, events: seq<Event>)
    ensures var start := Fresh(endpoint, host, inline);
      var o, d := Live(start, events), Live(start, events + [Did(Wake)]);
      if IsDone(o) then GoesOn(o.end, d.end) else d == o
  {
    assert (events + [Did(Wake)])[..|events|] == events;
    hide Happen, GoesOn;
    HappenWakes(Live(Fresh(endpoint, host, inline), events));
  }
}
