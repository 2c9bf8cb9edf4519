/** One proxy for each reference: over every run of one session, a reference received stands for the
    proxy it has, as long as that one is used and not given back. */
module Proxies {
  import opened Options
  import opened Wire
  import opened References
  import opened Endpoint
  import opened Invariant
  import opened Protocol
  import Network

  /** The record of a proxy that is used and not given back. */
  predicate IsLive(m: Imports, k: nat) {
    k < |m.records| && m.records[k].live && !m.records[k].released
  }

  /** Each of these is the one its id stands for. */
  ghost predicate OneEach(m: Imports) {
    forall k: nat :: IsLive(m, k) ==> m.records[k].id in m.current && m.current[m.records[k].id] == k
  }

  lemma DecodeOneEach(x: Exports, d: Decoding, r: Reference, host: bool)
    requires OneEach(d.imports) && ImportsOk(d.imports)
    ensures OneEach(DecodeOne(x, d, r, host).imports)
  {
    var m, n := d.imports, DecodeOne(x, d, r, host).imports;
    forall k: nat | IsLive(n, k) ensures n.records[k].id in n.current && n.current[n.records[k].id] == k {
      assert k < |m.records| ==> IsLive(m, k);
    }
  }

  lemma {:induction false} DecodeEach(x: Exports, m: Imports, refs: seq<Reference>, host: bool)
    requires OneEach(m) && ImportsOk(m)
    ensures OneEach(Decode(x, m, refs, host).imports)
    decreases |refs|
  {
    hide DecodeOne, OneEach, ImportsOk;
    if refs != [] {
      DecodeEach(x, m, refs[..|refs| - 1], host);
      var d := Decode(x, m, refs[..|refs| - 1], host);
      if !d.fault {
        DecodeEffect(x, m, refs[..|refs| - 1], host);
        DecodeOneEach(x, d, refs[|refs| - 1], host);
      }
    }
  }

  lemma GiveBackEach(m: Imports, k: nat)
    requires OneEach(m)
    ensures OneEach(GiveBack(m, k).0)
  {
    var n := GiveBack(m, k).0;
    forall i: nat | IsLive(n, i) ensures n.records[i].id in n.current && n.current[n.records[i].id] == i {
      assert IsLive(m, i);
    }
  }

  lemma GiveSomeEach(m: Imports, k: nat, count: nat)
    requires OneEach(m)
    ensures OneEach(GiveSome(m, k, count).0)
  {
    GiveBackEach(m, k);
    hide GiveBack;
    var n := GiveSome(m, k, count).0;
    if k < |m.records| && !m.records[k].released && count < m.records[k].grants {
      forall i: nat | IsLive(n, i) ensures n.records[i].id in n.current && n.current[n.records[i].id] == i {
        assert IsLive(m, i);
      }
    }
  }

  lemma {:induction false} DismissEach(m: Imports, imported: seq<nat>)
    requires OneEach(m)
    ensures OneEach(Dismiss(m, imported).0)
    decreases |imported|
  {
    hide OneEach, GiveSome;
    if imported != [] {
      var k := imported[0];
      GiveSomeEach(m, k, Count(imported, k));
      DismissEach(GiveSome(m, k, Count(imported, k)).0, Without(imported[1..], k));
    }
  }

  lemma TakeEach(x: Exports, m: Imports, payload: Payload, host: bool)
    requires OneEach(m) && ImportsOk(m)
    ensures OneEach(Take(x, m, payload, host).imports)
  {
    DecodeEach(x, m, payload.refs, host);
    DismissEach(Decode(x, m, payload.refs, host).imports, Decode(x, m, payload.refs, host).imported);
    hide OneEach, Decode, Dismiss;
  }

  lemma CollectEach(m: Imports, k: nat)
    requires OneEach(m) && k < |m.records|
    ensures OneEach(m.(records := m.records[k := m.records[k].(live := false)]))
  {
    var n := m.(records := m.records[k := m.records[k].(live := false)]);
    forall i: nat | IsLive(n, i) ensures n.records[i].id in n.current && n.current[n.records[i].id] == i {
      assert IsLive(m, i);
    }
  }

  // ── One step ────────────────────────────────────────────────────

  lemma ExecuteImports(e: End, job: Job, stamp: nat)
    requires e.remote.Some?
    ensures Execute(e, job, stamp).imports == e.imports
  {
    hide Encode, Related;
  }

  lemma RunImports(e: End, number: nat, stamp: nat)
    requires e.remote.Some?
    ensures Run(e, number, stamp).imports == e.imports
  {
    hide Execute;
    var i := Find(e.thread.queue, number);
    if i < |e.thread.queue| {
      ExecuteImports(e.(thread := e.thread.(queue := e.thread.queue[..i] + e.thread.queue[i + 1..]),
                        log := e.log.(started := e.log.started + [number])), e.thread.queue[i], stamp);
    }
  }

  lemma ScheduleImports(e: End, job: Job, stamp: nat)
    requires e.remote.Some?
    ensures Schedule(e, job, stamp).imports == e.imports
  {
    hide Execute, Run;
    ExecuteImports(Inlined(e, job.number), job, stamp);
    RunImports(Enqueue(e, job), job.number, stamp);
  }

  lemma ReceiveEach(e: End, f: Frame, stamp: nat)
    requires OneEach(e.imports) && ImportsOk(e.imports) && !Receive(e, f, stamp).1
    ensures OneEach(Receive(e, f, stamp).0.imports)
  {
    hide OneEach, ImportsOk, Take, Schedule;
    match f
    case Return(_, value) => TakeEach(e.exports, e.imports, value, e.host);
    case Throw(_) => TakeEach(e.exports, e.imports, Payload([], true), e.host);
    case Request(id, path, op, args) =>
      TakeEach(e.exports, e.imports, args, e.host);
      var business := IsBusiness(e.exports, op);
      var begun := Begin(Taken(e, f, id.number, TakeArgs(e, op, args)), business);
      ScheduleImports(begun, Job(id.number, path, op, business), stamp);
    case _ =>
  }

  lemma PerformEach(e: End, act: Act, stamp: nat)
    requires OneEach(e.imports) && Enabled(e, act)
    ensures OneEach(Perform(e, act, stamp).imports)
  {
    hide OneEach, Run, Encode, GiveBack, OperationOf, RequestOf;
    match act
    case Micro => RunImports(e.(thread := e.thread.(micro := e.thread.micro[1..])), e.thread.micro[0], stamp);
    case Drain => if e.thread.queue != [] { RunImports(e, e.thread.queue[0].number, stamp); }
    case Collect(k) => CollectEach(e.imports, k);
    case Free(k) => GiveBackEach(e.imports, k);
    case _ =>
  }

  lemma HappenEach(o: Solo, event: Event)
    requires OneEach(o.end.imports) && ImportsOk(o.end.imports)
    ensures OneEach(Happen(o, event).end.imports)
  {
    hide OneEach, ImportsOk, Perform, Receive, Enabled, Listening;
    if !o.closed {
      match event
      case Did(act) => if Enabled(o.end, act) { PerformEach(o.end, act, o.clock); }
      case Heard(f) =>
        if Listening(o.end) && !Receive(o.end, f, o.clock).1 { ReceiveEach(o.end, f, o.clock); }
    }
  }

  lemma {:induction false} LiveEach(endpoint: nat, host: bool, inline: set<string>, events: seq<Event>)
    ensures OneEach(Live(Fresh(endpoint, host, inline), events).end.imports)
    decreases |events|
  {
    hide OneEach, Happen;
    if events == [] {
      NoProxies(endpoint, host, inline);
    } else {
      LiveEach(endpoint, host, inline, events[..|events| - 1]);
      LiveSound(endpoint, host, inline, events[..|events| - 1]);
      var o := Live(Fresh(endpoint, host, inline), events[..|events| - 1]);
      Network.SoundTables(o.end, o.clock);
      HappenEach(o, events[|events| - 1]);
    }
  }

  lemma NoProxies(endpoint: nat, host: bool, inline: set<string>)
    ensures OneEach(Start(endpoint, host, inline).imports)
  {}

  /** Over every run, a reference received has at most one proxy that is used and not given back, and
      stands for it: it is what the id comes to. */
  lemma ProxiesExactly(endpoint: nat, host: bool, inline: set<string>, events: seq<Event>, id: nat, k: nat)
    ensures var m := Live(Fresh(endpoint, host, inline), events).end.imports;
      Current(m, id) == Some(k) <==> IsLive(m, k) && m.records[k].id == id
  {
    LiveEach(endpoint, host, inline, events);
    LiveSound(endpoint, host, inline, events);
    var o := Live(Fresh(endpoint, host, inline), events);
    Network.SoundTables(o.end, o.clock);
    hide Live, Sound, ExportsOk;
    assert IsLive(o.end.imports, k) ==> k < |o.end.imports.records|;
  }
}
