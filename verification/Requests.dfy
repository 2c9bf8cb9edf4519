/** What a call of this side's is sent as: to whom, in which calls, with which arguments. */
module Requests {
  import opened Options
  import opened Wire
  import opened References
  import opened Endpoint
  import opened Encodable

  // ── What is called ──────────────────────────────────────────────

  predicate IsProxy(m: Imports, k: nat) {
    k < |m.records| && m.records[k].live && !m.records[k].released
  }

  /** What is wanted can be called: a service by its name; a proxy that is live, not given back, and
      no plugin. */
  predicate IsCallable(m: Imports, want: Wanted) {
    want.Use? ==> IsProxy(m, want.record) && !m.records[want.record].kind.Plugin?
  }

  /** A Promise is awaited. */
  predicate IsPromise(m: Imports, want: Wanted) {
    want.Use? && want.record < |m.records| && m.records[want.record].kind.Future?
  }

  /** The operation is what is wanted: the method of the service; the function, the method of the
      object or the Promise that the proxy stands for. */
  ghost predicate IsOf(m: Imports, want: Wanted, op: Operation) {
    match op
    case Invoke(target, name) => want == Service(target, name)
    case Call(reference, member) =>
      && want.Use? && IsProxy(m, want.record) && m.records[want.record].id == reference
      && if m.records[want.record].kind.Function? then member.None?
         else m.records[want.record].kind.Object? && member == Some(want.member)
    case Await(reference) =>
      && want.Use? && IsProxy(m, want.record) && m.records[want.record].id == reference
      && m.records[want.record].kind.Future?
    case Get(_) => false
  }

  lemma CallsExactly(m: Imports, want: Wanted)
    ensures OperationOf(m, want).Some? <==> IsCallable(m, want)
    ensures OperationOf(m, want).Some? ==>
      IsOf(m, want, OperationOf(m, want).value) && (OperationOf(m, want).value.Await? <==> IsPromise(m, want))
  {}

  // ── What is sent ────────────────────────────────────────────────

  /** The path names the calls the code runs in, and for an await those the Promise came from, each
      once. */
  ghost predicate IsPath(m: Imports, want: Wanted, path: Path, sent: Path) {
    && (forall id :: id in sent <==> id in path || (IsPromise(m, want) && id in m.records[want.record].origin))
    && (forall i, j :: 0 <= i < j < |sent| ==> sent[i] != sent[j])
  }

  /** The arguments written: none for an await; else each reference stands for its value. */
  ghost predicate Arguments(e: End, d: End, items: seq<Item>, sound: bool, ctx: Context, f: Frame)
    requires f.Request?
  {
    if f.op.Await? then f.args == Payload([], true) && d.exports == e.exports
    else
      && f.args.sound == sound && AllStand(d.exports, e.imports.records, f.args.refs, items)
      && AllOut(e.exports, d.exports, items) && NamedFor(e.exports, d.exports, items, ctx)
  }

  /** This thread waits for a call of a service or of a function that is made synchronously. */
  ghost predicate WaitsFor(e: End, d: End, sync: bool, stamp: nat, f: Frame)
    requires f.Request?
  {
    d.thread == e.thread.(stack := e.thread.stack +
      if sync && (f.op.Invoke? || (f.op.Call? && f.op.member.None?)) then [Waiting(f.id.number, true, stamp)] else [])
  }

  /** The request of a call: from the state `e` to `d`. */
  ghost predicate Asks(
    e: End, d: End, want: Wanted, items: seq<Item>, sound: bool, sync: bool, path: Path, stamp: nat, f: Frame)
    requires f.Request?
  {
    && f.id == CallId(e.endpoint, e.next + 1) && d.next == e.next + 1 && d.pending == e.pending + {f.id.number}
    && IsOf(e.imports, want, f.op) && IsPath(e.imports, want, path, f.path)
    && Arguments(e, d, items, sound, Context(path, true, e.plugins), f)
    && WaitsFor(e, d, sync, stamp, f)
    && d.log == e.log.(sent := e.log.sent + [f])
    && d == e.(next := d.next, pending := d.pending, exports := d.exports, thread := d.thread, log := d.log)
  }

  /** The call can be sent: it can be made, its number counted, and its arguments written. */
  ghost predicate CanAsk(e: End, want: Wanted, items: seq<Item>, encodes: bool, path: Path) {
    && IsCallable(e.imports, want) && e.next + 1 <= MAX_SAFE
    && (IsPromise(e.imports, want) ||
        (encodes && CanEncode(e.exports, e.imports.records, items, Context(path, true, e.plugins))))
  }

  lemma PrepareExactly(e: End, op: Operation, items: seq<Item>, encodes: bool, sound: bool, path: Path)
    requires ExportsOk(e.exports)
    ensures var (y, args) := Prepare(e, op, items, encodes, sound, path);
      var ctx := Context(path, true, e.plugins);
      && (args.Some? <==> op.Await? || (encodes && CanEncode(e.exports, e.imports.records, items, ctx)))
      && (args.Some? ==>
          if op.Await? then args.value == Payload([], true) && y == e.exports
          else
            && args.value.sound == sound && AllStand(y, e.imports.records, args.value.refs, items)
            && AllOut(e.exports, y, items) && NamedFor(e.exports, y, items, ctx))
      && (args.None? ==> y.entries == e.exports.entries)
  {
    if !op.Await? {
      EncodeExactly(e.exports, e.imports.records, items, encodes, Context(path, true, e.plugins));
      hide CanEncode, AllStand, AllOut, NamedFor, Encode, ExportsOk;
    }
  }

  lemma PathExactly(e: End, want: Wanted, op: Operation, args: Payload, path: Path)
    requires IsCallable(e.imports, want)
    ensures IsPath(e.imports, want, path, RequestOf(e, want, op, args, path).path)
  {}

  lemma IssueAsks(
    e: End, y: Exports, want: Wanted, items: seq<Item>, sound: bool, sync: bool, path: Path, stamp: nat, f: Frame)
    requires f.Request? && f.id == CallId(e.endpoint, e.next + 1)
    requires IsOf(e.imports, want, f.op) && IsPath(e.imports, want, path, f.path)
    requires Arguments(e, e.(exports := y), items, sound, Context(path, true, e.plugins), f)
    ensures Asks(e, Issue(e, y, f, sync, stamp), want, items, sound, sync, path, stamp, f)
  {
    hide IsOf, IsPath, AllStand, AllOut, NamedFor;
    assert e.thread.stack + [] == e.thread.stack;
  }

  /** What a call sends: its request when it can be sent, and nothing, with nothing granted, when not. */
  lemma AskExactly(
    e: End, want: Wanted, items: seq<Item>, encodes: bool, sound: bool, sync: bool, path: Path, stamp: nat)
    returns (sent: seq<Frame>)
    requires ExportsOk(e.exports)
    ensures var d := AskFor(e, want, items, encodes, sound, sync, path, stamp);
      && |sent| == (if CanAsk(e, want, items, encodes, path) then 1 else 0)
      && (sent != [] ==> sent[0].Request? && Asks(e, d, want, items, sound, sync, path, stamp, sent[0]))
      && (sent == [] ==>
          d == e.(next := d.next, exports := d.exports) && d.exports.entries == e.exports.entries)
      && d.next == e.next + (if IsCallable(e.imports, want) then 1 else 0)
  {
    var op := OperationOf(e.imports, want);
    sent := [];
    CallsExactly(e.imports, want);
    hide OperationOf, IsCallable, ExportsOk, Asks, IsOf, IsPath;
    if op.Some? && e.next + 1 <= MAX_SAFE {
      var (y, args) := Prepare(e, op.value, items, encodes, sound, path);
      PrepareExactly(e, op.value, items, encodes, sound, path);
      hide Prepare, CanEncode, AllStand, AllOut, NamedFor, Issue;
      if args.Some? {
        var f := RequestOf(e, want, op.value, args.value, path);
        PathExactly(e, want, op.value, args.value, path);
        IssueAsks(e, y, want, items, sound, sync, path, stamp, f);
        sent := [f];
      }
    }
  }
}
