/** The session as the object it is: its fields change in place, and each method is proved to do
    what the transition system of `Endpoint` and `References` says of that step. */
module SessionClass {
  import opened Options
  import opened Wire
  import opened R = References
  import Endpoint

  // ── The order in which a refused value's references are given back ──

  /** The elements of `ks`, each where it comes first. */
  function Distinct(ks: seq<nat>): seq<nat>
    decreases |ks|
  {
    if ks == [] then [] else [ks[0]] + Distinct(R.Without(ks[1..], ks[0]))
  }

  lemma {:induction false} WithoutMore(ks: seq<nat>, k: nat, j: nat)
    ensures R.Without(ks + [k], j) == R.Without(ks, j) + if k == j then [] else [k]
    ensures k in R.Without(ks, j) <==> k in ks && k != j
  {
    if ks != [] {
      WithoutMore(ks[1..], k, j);
      assert (ks + [k])[1..] == ks[1..] + [k];
    }
  }

  lemma {:induction false} DistinctMore(ks: seq<nat>, k: nat)
    ensures Distinct(ks + [k]) == if k in ks then Distinct(ks) else Distinct(ks) + [k]
    decreases |ks|
  {
    if ks != [] {
      var rest := R.Without(ks[1..], ks[0]);
      WithoutMore(ks[1..], k, ks[0]);
      assert (ks + [k])[1..] == ks[1..] + [k];
      assert (ks + [k])[0] == ks[0];
      if k != ks[0] {
        DistinctMore(rest, k);
        assert k in rest <==> k in ks;
        assert [ks[0]] + (Distinct(rest) + [k]) == ([ks[0]] + Distinct(rest)) + [k];
      } else {
        assert rest + [] == rest;
      }
    }
  }

  lemma {:induction false} CountMore(ks: seq<nat>, k: nat, j: nat)
    ensures R.Count(ks + [k], j) == R.Count(ks, j) + if k == j then 1 else 0
  {
    if ks != [] {
      CountMore(ks[1..], k, j);
      assert (ks + [k])[1..] == ks[1..] + [k];
    }
  }

  lemma {:induction false} CountWithout(ks: seq<nat>, k: nat, j: nat)
    requires j != k
    ensures R.Count(R.Without(ks, k), j) == R.Count(ks, j)
    ensures j in R.Without(ks, k) ==> j in ks
  {
    if ks != [] {
      CountWithout(ks[1..], k, j);
      if ks[0] != k {
        assert ([ks[0]] + R.Without(ks[1..], k))[1..] == R.Without(ks[1..], k);
      }
    }
  }

  lemma {:induction false} NoneWithout(ks: seq<nat>, k: nat)
    ensures k !in R.Without(ks, k)
  {
    if ks != [] { NoneWithout(ks[1..], k); }
  }

  /** What is left to give back after the first record's share. */
  lemma RestCounted(rest: seq<nat>, counts: map<nat, nat>)
    requires rest != [] && forall k <- rest :: k in counts && counts[k] == R.Count(rest, k)
    ensures forall k <- R.Without(rest[1..], rest[0]) ::
      k in counts && counts[k] == R.Count(R.Without(rest[1..], rest[0]), k)
  {
    var first, tail := rest[0], rest[1..];
    forall k | k in R.Without(tail, first)
      ensures k in counts && counts[k] == R.Count(R.Without(tail, first), k)
    {
      NoneWithout(tail, first);
      CountWithout(tail, first, k);
      assert k in rest && R.Count(rest, k) == R.Count(tail, k);
    }
  }

  lemma DismissFirst(m: Imports, rest: seq<nat>)
    requires rest != []
    ensures var first := R.GiveSome(m, rest[0], R.Count(rest, rest[0]));
      var more := R.Dismiss(first.0, R.Without(rest[1..], rest[0]));
      R.Dismiss(m, rest) == (more.0, first.1 + more.1)
  {}

  lemma FirstOf(order: seq<nat>, rest: seq<nat>)
    requires order == Distinct(rest) && order != []
    ensures rest != [] && order[0] == rest[0] && order[1..] == Distinct(R.Without(rest[1..], rest[0]))
  {}

  lemma NothingLeft(rest: seq<nat>, m: Imports)
    requires Distinct(rest) == []
    ensures R.Dismiss(m, rest) == (m, [])
  {}

  function Sent(log: Endpoint.Log, frames: seq<Frame>): Endpoint.Log {
    log.(sent := log.sent + frames)
  }

  class Session {
    const endpoint: nat
    const host: bool
    const inline: set<string>

    // The far end, once it greeted.
    var remote: Option<nat>
    var plugins: bool
    var closed: bool

    // Calls: the last number made and the last taken, and those waiting for a reply.
    var next: nat
    var received: nat
    var pending: set<nat>

    // The reference tables, what is on the thread, and the frames written.
    var exports: Exports
    var imports: Imports
    var thread: Endpoint.Thread
    var log: Endpoint.Log

    ghost function State(): Endpoint.End
      reads this
    {
      Endpoint.End(endpoint, host, inline, remote, plugins, next, received, pending, exports, imports, thread, log)
    }

    constructor (endpoint: nat, host: bool, inline: set<string>)
      ensures State() == Endpoint.Start(endpoint, host, inline) && !closed
    {
      this.endpoint, this.host, this.inline := endpoint, host, inline;
      remote, plugins, closed := None, false, false;
      next, received, pending := 0, 0, {};
      exports, imports := Exports(0, map[], map[], map[], 0, map[]), Imports(map[], []);
      thread := Endpoint.Thread([], [], [], [], {});
      log := Endpoint.Log([Hello(PROTOCOL, endpoint, host)], [], [], [], [], []);
    }

    /** Write frames to the channel. */
    method Write(frames: seq<Frame>)
      modifies this`log
      ensures log == Sent(old(log), frames)
    {
      log := log.(sent := log.sent + frames);
    }

    /** Note a frame taken. */
    method Note(f: Frame)
      modifies this`log
      ensures log == old(log).(got := old(log).got + [f])
    {
      log := log.(got := log.got + [f]);
    }

    /** A fault ends the session. */
    method Close()
      modifies this
      ensures closed && pending == {} && exports.entries == map[] && imports.current == map[] && thread.queue == []
    {
      closed := true;
      pending, exports, imports := {}, exports.(entries := map[]), imports.(current := map[]);
      thread := thread.(queue := []);
    }

    // ── References out ────────────────────────────────────────────

    method EncodeReference(item: Item, ctx: Context) returns (r: Option<Reference>)
      modifies this`exports
      ensures (exports, r) == R.GrantOne(old(exports), imports.records, item, ctx)
    {
      if item.Imported? {
        if item.record >= |imports.records| || imports.records[item.record].released { return None; }
        var record := imports.records[item.record];
        return Some(Reference(record.id, record.kind, true, record.origin));
      }
      var v := item.value;
      var id;
      if v in exports.identities && exports.identities[v] in exports.entries {
        id := exports.identities[v];
      } else {
        id := exports.ref + 1;
        exports := exports.(ref := id);
        if id > MAX_SAFE || (v.kind.Plugin? && !ctx.plugins) { return None; }
        var name := Name(v, ctx.path, ctx.business);
        exports := exports.(identities := exports.identities[v := id],
          entries := exports.entries[id := Export(name, 0)], names := exports.names[id := name]);
        if v.kind.Future? {
          exports := exports.(futures := exports.futures[id := Unsettled]);
          if ctx.business { exports := exports.(active := exports.active + 1); }
        }
      }
      var entry := exports.entries[id];
      if entry.grants + 1 > MAX_SAFE { return None; }
      exports := exports.(entries := exports.entries[id := entry.(grants := entry.grants + 1)]);
      r := Some(Reference(id, entry.name.value.kind, false, entry.name.origin));
    }

    method Rollback(ids: seq<nat>)
      modifies this`exports
      ensures exports == R.Rollback(old(exports), ids)
    {
      for i := 0 to |ids|
        invariant exports == R.Rollback(old(exports), ids[..i])
      {
        assert ids[..i + 1][..i] == ids[..i];
        if ids[i] in exports.entries {
          var entry := exports.entries[ids[i]];
          exports := exports.(entries := if entry.grants <= 1 then exports.entries - {ids[i]}
                                         else exports.entries[ids[i] := entry.(grants := entry.grants - 1)]);
        }
      }
      assert ids[..|ids|] == ids;
    }

    /** Encode a value with these references: granted all, or rolled back. */
    method EncodeValue(items: seq<Item>, encodes: bool, ctx: Context) returns (refs: Option<seq<Reference>>)
      modifies this`exports
      ensures (exports, refs) == R.Encode(old(exports), imports.records, items, encodes, ctx)
    {
      var written, grants, ok, i := [], [], true, 0;
      while i < |items| && ok
        invariant i <= |items|
        invariant R.Grant(old(exports), imports.records, items[..i], ctx) == R.Granting(exports, written, grants, ok)
      {
        assert items[..i + 1][..i] == items[..i];
        var r := EncodeReference(items[i], ctx);
        if r.Some? {
          written := written + [r.value];
          if !r.value.home { grants := grants + [r.value.id]; }
        } else {
          ok := false;
        }
        i := i + 1;
      }
      GrantStops(old(exports), imports.records, items, i, ctx);
      if ok && encodes { return Some(written); }
      Rollback(grants);
      refs := None;
    }

    // ── References in ─────────────────────────────────────────────

    /** Import one reference: the record it counts on, whether it is refused, whether it is a fault. */
    method DecodeReference(r: Reference) returns (record: Option<nat>, refused: bool, fault: bool)
      modifies this`imports
      ensures var d := R.DecodeOne(exports, R.Decoding(old(imports), [], false, false), r, host);
        d == R.Decoding(imports, if record.Some? then [record.value] else [], refused, fault)
    {
      record, refused, fault := None, false, false;
      if r.id == 0 || r.id > MAX_SAFE { return None, false, true; }
      if r.home { return None, false, !(r.id in exports.entries && exports.entries[r.id].name.value.kind == r.kind); }
      var records := imports.records;
      if r.kind.Plugin? && !host {
        imports := imports.(records := records + [Record(r.id, r.kind, r.origin, 1, false, false)]);
        return Some(|records|), true, false;
      }
      if r.id in imports.current && imports.current[r.id] < |records| && records[imports.current[r.id]].live {
        var k := imports.current[r.id];
        if records[k].kind != r.kind || records[k].origin != r.origin || records[k].grants + 1 > MAX_SAFE {
          return None, false, true;
        }
        imports := imports.(records := records[k := records[k].(grants := records[k].grants + 1)]);
        return Some(k), false, false;
      }
      imports := Imports(imports.current[r.id := |records|],
        records + [Record(r.id, r.kind, r.origin, 1, true, false)]);
      record := Some(|records|);
    }

    /** Release a received reference, with every grant it has. */
    method Release(k: nat)
      modifies this`imports, this`log
      ensures var (m, releases) := R.GiveBack(old(imports), k); imports == m && log == Sent(old(log), releases)
    {
      if k >= |imports.records| || imports.records[k].released { return; }
      var record := imports.records[k];
      imports := imports.(records := imports.records[k := record.(released := true)]);
      if record.id in imports.current && imports.current[record.id] == k {
        imports := imports.(current := imports.current - {record.id});
      }
      Write([Frame.Release(record.id, record.grants)]);
    }

    /** How often each record was imported, the records in the order they came. */
    method Tally(imported: seq<nat>) returns (order: seq<nat>, counts: map<nat, nat>)
      ensures order == Distinct(imported)
      ensures forall k <- imported :: k in counts && counts[k] == R.Count(imported, k)
    {
      order, counts := [], map[];
      for i := 0 to |imported|
        invariant order == Distinct(imported[..i])
        invariant forall k :: k in counts <==> k in imported[..i]
        invariant forall k <- counts :: counts[k] == R.Count(imported[..i], k)
      {
        var k := imported[i];
        assert imported[..i + 1] == imported[..i] + [k];
        DistinctMore(imported[..i], k);
        forall j: nat ensures R.Count(imported[..i + 1], j) == R.Count(imported[..i], j) + if k == j then 1 else 0 {
          CountMore(imported[..i], k, j);
        }
        NotThere(imported[..i], k);
        if k !in counts { order := order + [k]; }
        counts := counts[k := (if k in counts then counts[k] else 0) + 1];
      }
      assert imported[..|imported|] == imported;
    }

    /** Give back what a refused value imported, record by record. */
    method Dismiss(imported: seq<nat>)
      modifies this`imports, this`log
      ensures var (m, releases) := R.Dismiss(old(imports), imported); imports == m && log == Sent(old(log), releases)
    {
      hide R.Dismiss, R.GiveSome, Distinct;
      var order, counts := Tally(imported);
      ghost var rest, written, all := imported, [], R.Dismiss(imports, imported);
      assert all.1 == written + all.1;
      for i := 0 to |order|
        invariant order[i..] == Distinct(rest)
        invariant forall k <- rest :: k in counts && counts[k] == R.Count(rest, k)
        invariant log == Sent(old(log), written)
        invariant all.0 == R.Dismiss(imports, rest).0 && all.1 == written + R.Dismiss(imports, rest).1
      {
        ghost var before := imports;
        FirstOf(order[i..], rest);
        RestCounted(rest, counts);
        DismissFirst(before, rest);
        GiveSome(order[i], counts[order[i]]);
        written := written + R.GiveSome(before, rest[0], R.Count(rest, rest[0])).1;
        rest := R.Without(rest[1..], rest[0]);
        assert order[i + 1..] == order[i..][1..];
      }
      NothingLeft(rest, imports);
    }

    method GiveSome(k: nat, count: nat)
      modifies this`imports, this`log
      ensures var (m, releases) := R.GiveSome(old(imports), k, count); imports == m && log == Sent(old(log), releases)
    {
      if k >= |imports.records| || imports.records[k].released { return; }
      var record := imports.records[k];
      if count >= record.grants {
        Release(k);
      } else {
        imports := imports.(records := imports.records[k := record.(grants := record.grants - count)]);
        Write([Frame.Release(record.id, count)]);
      }
    }

    /** Decode a payload: import all its references, also past a refused one, and when
        the value is refused they are given back. */
    method DecodeValue(payload: Payload) returns (refused: bool, fault: bool)
      modifies this`imports, this`log
      ensures var t := R.Take(exports, old(imports), payload, host);
        && fault == t.fault
        && (!fault ==> imports == t.imports && log == Sent(old(log), t.releases) && refused == t.refused)
    {
      hide R.Dismiss, R.DecodeOne;
      var imported, i := [], 0;
      refused, fault := false, false;
      while i < |payload.refs| && !fault
        invariant i <= |payload.refs|
        invariant R.Decode(exports, old(imports), payload.refs[..i], host) ==
          R.Decoding(imports, imported, refused, fault)
        invariant log == old(log)
      {
        DecodesNext(exports, old(imports), payload.refs, i, host, R.Decoding(imports, imported, refused, false));
        var record, no, bad := DecodeReference(payload.refs[i]);
        if record.Some? { imported := imported + [record.value]; }
        refused, fault := refused || no, bad;
        i := i + 1;
      }
      DecodeStops(exports, old(imports), payload.refs, i, host);
      if fault { return; }
      if refused || !payload.sound {
        refused := true;
        Dismiss(imported);
      }
    }

    // ── Calls ─────────────────────────────────────────────────────

    /** The frame that answers a call: a result that cannot be sent is an error. */
    method ReplyFrame(id: CallId, path: Path, business: bool, answer: Answer) returns (frame: Frame)
      modifies this`exports
      ensures answer.Failure? ==> frame == Throw(id) && exports == old(exports)
      ensures answer.Value? ==>
        var (x, refs) := R.Encode(old(exports), imports.records, answer.items, answer.encodes,
          Context(path, business, plugins));
        exports == x && frame == if refs.Some? then Return(id, Payload(refs.value, answer.sound)) else Throw(id)
    {
      hide R.Encode;
      frame := Throw(id);
      if answer.Value? {
        var refs := EncodeValue(answer.items, answer.encodes, Context(path, business, plugins));
        if refs.Some? { frame := Return(id, Payload(refs.value, answer.sound)); }
      }
    }

    /** Answer the far end's call, and count it done. */
    method Respond(number: nat, path: Path, business: bool, answer: Answer)
      requires remote.Some?
      modifies this`exports, this`log
      ensures State() == Endpoint.Respond(old(State()), number, path, business, answer)
    {
      hide R.Encode;
      var frame := ReplyFrame(CallId(remote.value, number), path, business, answer);
      Write([frame]);
      if business { exports := exports.(active := exports.active - 1); }
    }

    /** Whether a call with this path belongs to a synchronous call of this side that waits. */
    method IsRelated(path: Path) returns (related: bool)
      ensures related == Endpoint.Related(State(), path)
    {
      for i := 0 to |thread.stack|
        invariant forall k ::
          0 <= k < i && thread.stack[k].Waiting? ==> CallId(endpoint, thread.stack[k].number) !in path
      {
        if thread.stack[i].Waiting? && CallId(endpoint, thread.stack[i].number) in path { return true; }
      }
      related := false;
    }

    method Execute(job: Endpoint.Job, stamp: nat)
      requires remote.Some?
      modifies this
      ensures State() == Endpoint.Execute(old(State()), job, stamp) && closed == old(closed)
    {
      var path := job.path + [CallId(remote.value, job.number)];
      thread := thread.(contexts := thread.contexts + {path});
      if !job.op.Await? {
        thread := thread.(stack := thread.stack + [Endpoint.Running(job.number, path, job.business, stamp)]);
        return;
      }
      if job.op.reference in exports.futures && exports.futures[job.op.reference].Settled? {
        Respond(job.number, path, job.business, exports.futures[job.op.reference].answer);
        return;
      }
      var related := IsRelated(job.path);
      if related {
        Respond(job.number, path, job.business, Failure);
      } else {
        thread := thread.(awaiting := thread.awaiting +
          [Endpoint.Awaited(job.number, path, job.op.reference, job.business)]);
      }
    }

    /** Start a queued call, unless it was started before. */
    method Run(number: nat, stamp: nat)
      requires remote.Some?
      modifies this
      ensures State() == Endpoint.Run(old(State()), number, stamp) && closed == old(closed)
    {
      hide Endpoint.Execute;
      var i := 0;
      while i < |thread.queue| && thread.queue[i].number != number
        invariant i <= |thread.queue| && forall k :: 0 <= k < i ==> thread.queue[k].number != number
      {
        i := i + 1;
      }
      assert i == Endpoint.Find(thread.queue, number) by { FoundFirst(thread.queue, number, i); }
      if i == |thread.queue| { return; }
      var job := thread.queue[i];
      thread := thread.(queue := thread.queue[..i] + thread.queue[i + 1..]);
      log := log.(started := log.started + [number]);
      Execute(job, stamp);
    }

    /** Take one frame. A frame no honest far end sends closes the session. */
    method Receive(f: Frame, stamp: nat)
      modifies this
      ensures old(closed) ==> State() == old(State()) && closed
      ensures !old(closed) ==> closed == Endpoint.Receive(old(State()), f, stamp).1
      ensures !closed ==> State() == Endpoint.Receive(old(State()), f, stamp).0
      ensures closed && !old(closed) ==>
        pending == {} && exports.entries == map[] && imports.current == map[] && thread.queue == []
    {
      if closed { return; }
      if f.Hello? {
        if remote.Some? || f.version != PROTOCOL || f.endpoint == endpoint { Close(); return; }
        remote, plugins := Some(f.endpoint), f.plugins;
        Note(f);
      } else if remote.None? {
        Close();
      } else if f.Return? || f.Throw? {
        TakeReply(f);
      } else if f.Release? {
        TakeRelease(f);
      } else {
        TakeRequest(f, stamp);
      }
    }

    method TakeReply(f: Frame)
      requires (f.Return? || f.Throw?) && remote.Some? && !closed
      modifies this
      ensures var (e, fault) := Endpoint.Reply(old(State()), f, f.id, if f.Return? then f.value else Payload([], true));
        && closed == fault && (!closed ==> State() == e)
      ensures closed ==> pending == {} && exports.entries == map[] && imports.current == map[] && thread.queue == []
    {
      hide R.Take;
      // A reference is imported before a release of it can be read.
      var refused, fault := DecodeValue(if f.Return? then f.value else Payload([], true));
      if fault || f.id.endpoint != endpoint || f.id.number !in pending { Close(); return; }
      Note(f);
      pending := pending - {f.id.number};
    }

    method TakeRelease(f: Frame)
      requires f.Release? && remote.Some? && !closed
      modifies this
      ensures var (e, fault) := Endpoint.Returned(old(State()), f, f.reference, f.count);
        closed == fault && (!closed ==> State() == e)
      ensures closed ==> pending == {} && exports.entries == map[] && imports.current == map[] && thread.queue == []
    {
      if f.reference !in exports.entries { Close(); return; }
      var entry := exports.entries[f.reference];
      if f.count == 0 || f.count > MAX_SAFE || f.count > entry.grants { Close(); return; }
      exports := exports.(entries := if f.count == entry.grants then exports.entries - {f.reference}
                                     else exports.entries[f.reference := entry.(grants := entry.grants - f.count)]);
      Note(f);
    }

    /** Decode a request's arguments, when it has some. */
    method TakeArguments(f: Frame) returns (refused: bool, fault: bool)
      requires f.Request?
      modifies this`imports, this`log
      ensures var k := Endpoint.TakeArgs(old(State()), f.op, f.args);
        && fault == k.fault
        && (!fault ==> imports == k.imports && log == Sent(old(log), k.releases) && refused == k.refused)
    {
      hide R.Take;
      refused, fault := false, false;
      if !(f.op.Await? || f.op.Get?) { refused, fault := DecodeValue(f.args); }
    }

    method TakeRequest(f: Frame, stamp: nat)
      requires f.Request? && remote.Some? && !closed
      modifies this
      ensures var (e, fault) := Endpoint.Accept(old(State()), f, f.id, f.path, f.op, f.args, stamp);
        closed == fault && (!closed ==> State() == e)
      ensures closed ==> pending == {} && exports.entries == map[] && imports.current == map[] && thread.queue == []
    {
      hide Endpoint.TakeArgs, Endpoint.Schedule, Endpoint.IsBusiness, R.Exported;
      var known := f.op.Invoke? ||
        (f.op.reference in exports.entries && exports.entries[f.op.reference].name.value.kind == TargetKind(f.op));
      KnownTarget(exports, f.op, known);
      if remote != Some(f.id.endpoint) || f.id in f.path { Close(); return; }
      if !(1 <= f.id.number <= MAX_SAFE) || f.id.number <= received { Close(); return; }
      received := f.id.number;
      ghost var before := old(State());
      assert Endpoint.TakeArgs(State(), f.op, f.args) == Endpoint.TakeArgs(before, f.op, f.args) by {
        SameArgs(State(), before, f.op, f.args);
      }
      var refused, fault := TakeArguments(f);
      if fault || !known { Close(); return; }
      Note(f);
      if refused {
        Write([Throw(f.id)]);
        log := log.(refused := log.refused + [f.id.number]);
        return;
      }
      assert State() == Endpoint.Taken(before, f, f.id.number, Endpoint.TakeArgs(before, f.op, f.args));
      var business := if f.op.Invoke? then f.op.target != "" else exports.entries[f.op.reference].name.business;
      assert business == Endpoint.IsBusiness(before.exports, f.op) by { BusinessTarget(before.exports, f.op); }
      if business { exports := exports.(active := exports.active + 1); }
      Schedule(Endpoint.Job(f.id.number, f.path, f.op, business), stamp);
    }

    /** Start a call just taken: at once, or in a microtask. */
    method Schedule(job: Endpoint.Job, stamp: nat)
      requires remote.Some?
      modifies this
      ensures State() == Endpoint.Schedule(old(State()), job, stamp) && closed == old(closed)
    {
      if job.op.Invoke? && job.op.target == "" && job.op.name in inline {
        log := log.(inlined := log.inlined + [job.number]);
        Execute(job, stamp);
        return;
      }
      thread := thread.(queue := thread.queue + [job]);
      log := log.(queued := log.queued + [job.number]);
      if Endpoint.IsWaiting(thread.stack) {
        Run(job.number, stamp);
      } else {
        thread := thread.(micro := thread.micro + [job.number]);
      }
    }

    /** Send a request of this side's; nothing is granted when it cannot be sent. */
    method Request(
      want: Endpoint.Wanted, items: seq<Item>, encodes: bool, sound: bool, sync: bool, path: Path, stamp: nat)
      modifies this
      ensures State() == Endpoint.AskFor(old(State()), want, items, encodes, sound, sync, path, stamp)
      ensures closed == old(closed)
    {
      hide R.Encode, Endpoint.Deduped, Endpoint.OriginOf, Endpoint.OperationOf, Endpoint.Issue;
      ghost var before := State();
      var op := Endpoint.OperationOf(imports, want);
      if op.None? { return; }
      next := next + 1;
      if next > MAX_SAFE { return; }
      var args := EncodeArgs(op.value, items, encodes, sound, path);
      if args.None? { return; }
      var trail := Endpoint.Deduped(path + Endpoint.OriginOf(imports, want));
      WriteRequest(before, Frame.Request(CallId(endpoint, next), trail, op.value, args.value), sync, stamp);
    }

    /** A call's arguments, granted; none when they cannot be sent. */
    method EncodeArgs(
      op: Operation, items: seq<Item>, encodes: bool, sound: bool, path: Path) returns (args: Option<Payload>)
      modifies this`exports
      ensures (exports, args) == Endpoint.Prepare(old(State()), op, items, encodes, sound, path)
    {
      hide R.Encode;
      if op.Await? { return Some(Payload([], true)); }
      var refs := EncodeValue(items, encodes, Context(path, true, plugins));
      args := if refs.Some? then Some(Payload(refs.value, sound)) else None;
    }

    /** Send a request: this side waits for its reply, on the stack when it is synchronous. */
    method WriteRequest(ghost before: Endpoint.End, request: Frame, sync: bool, stamp: nat)
      requires request.Request? && State() == before.(next := before.next + 1, exports := exports)
      modifies this`pending, this`log, this`thread
      ensures State() == Endpoint.Issue(before, exports, request, sync, stamp)
    {
      pending := pending + {next};
      Write([request]);
      if sync && (request.op.Invoke? || (request.op.Call? && request.op.member.None?)) {
        thread := thread.(stack := thread.stack + [Endpoint.Waiting(next, true, stamp)]);
      }
    }

    /** A synchronous call was answered: when none waits any more, what is still queued gets a
        microtask each. */
    method Wake()
      requires thread.stack != []
      modifies this`thread
      ensures State() == Endpoint.Woken(old(State()))
    {
      thread := thread.(stack := thread.stack[..|thread.stack| - 1]);
      if !Endpoint.IsWaiting(thread.stack) {
        ghost var popped := thread;
        for i := 0 to |thread.queue|
          invariant thread == popped.(micro := popped.micro + Endpoint.Numbers(popped.queue)[..i])
        {
          thread := thread.(micro := thread.micro + [thread.queue[i].number]);
        }
        assert Endpoint.Numbers(popped.queue)[..|popped.queue|] == Endpoint.Numbers(popped.queue);
      }
    }
  }

  lemma FoundFirst(queue: seq<Endpoint.Job>, number: nat, i: nat)
    requires i <= |queue| && (i < |queue| ==> queue[i].number == number)
    requires forall k :: 0 <= k < i ==> queue[k].number != number
    ensures i == Endpoint.Find(queue, number)
  {}

  lemma KnownTarget(x: Exports, op: Operation, known: bool)
    requires known ==
      (op.Invoke? || (op.reference in x.entries && x.entries[op.reference].name.value.kind == TargetKind(op)))
    ensures known == (op.Invoke? || R.Exported(x, op.reference, TargetKind(op)))
    ensures known && !op.Invoke? ==> op.reference in x.entries
  {}

  lemma SameArgs(e: Endpoint.End, d: Endpoint.End, op: Operation, args: Payload)
    requires e.exports == d.exports && e.imports == d.imports && e.host == d.host
    ensures Endpoint.TakeArgs(e, op, args) == Endpoint.TakeArgs(d, op, args)
  {}

  lemma BusinessTarget(x: Exports, op: Operation)
    requires !op.Invoke? ==> op.reference in x.entries
    ensures Endpoint.IsBusiness(x, op) == if op.Invoke? then op.target != "" else x.entries[op.reference].name.business
  {}

  lemma {:induction false} NotThere(ks: seq<nat>, k: nat)
    ensures k !in ks ==> R.Count(ks, k) == 0
  {
    if ks != [] { NotThere(ks[1..], k); }
  }

  /** Past a reference that cannot be sent nothing more is granted. */
  lemma {:induction false} GrantStops(x: Exports, records: seq<Record>, items: seq<Item>, i: nat, ctx: Context)
    requires i <= |items| && (i < |items| ==> !R.Grant(x, records, items[..i], ctx).ok)
    ensures R.Grant(x, records, items, ctx) == R.Grant(x, records, items[..i], ctx)
    decreases |items|
  {
    if i == |items| {
      assert items[..i] == items;
    } else {
      var front := items[..|items| - 1];
      assert front[..i] == items[..i];
      GrantStops(x, records, front, i, ctx);
    }
  }

  /** One reference more: what it does to the tables does not depend on what was imported before. */
  lemma DecodesNext(x: Exports, m: Imports, refs: seq<Reference>, i: nat, host: bool, d: R.Decoding)
    requires i < |refs| && R.Decode(x, m, refs[..i], host) == d && !d.fault
    ensures var one := R.DecodeOne(x, R.Decoding(d.imports, [], false, false), refs[i], host);
      R.Decode(x, m, refs[..i + 1], host) ==
        R.Decoding(one.imports, d.imported + one.imported, d.refused || one.refused, one.fault)
  {
    assert refs[..i + 1][..i] == refs[..i];
    OneAlone(x, d, refs[i], host);
    hide R.DecodeOne;
  }

  lemma OneAlone(x: Exports, d: R.Decoding, r: Reference, host: bool)
    requires !d.fault
    ensures var one := R.DecodeOne(x, R.Decoding(d.imports, [], false, false), r, host);
      R.DecodeOne(x, d, r, host) ==
        R.Decoding(one.imports, d.imported + one.imported, d.refused || one.refused, one.fault)
  {}

  lemma {:induction false} DecodeStops(x: Exports, m: Imports, refs: seq<Reference>, i: nat, host: bool)
    requires i <= |refs| && (i < |refs| ==> R.Decode(x, m, refs[..i], host).fault)
    ensures R.Decode(x, m, refs, host) == R.Decode(x, m, refs[..i], host)
    decreases |refs|
  {
    if i == |refs| {
      assert refs[..i] == refs;
    } else {
      var front := refs[..|refs| - 1];
      assert front[..i] == refs[..i];
      DecodeStops(x, m, front, i, host);
    }
  }
}
