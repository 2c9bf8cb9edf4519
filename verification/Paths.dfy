/** Call paths: every call id anywhere in a session is of a call already made, so a new call is
    never in its own path. */
module Paths {
  import opened Wire
  import opened References
  import opened Endpoint

  /** `id` is of one of the two sides, at most its last call. */
  predicate Made(id: CallId, own: CallId, far: CallId) {
    || (id.endpoint == own.endpoint && id.number <= own.number)
    || (id.endpoint == far.endpoint && id.number <= far.number)
  }

  ghost predicate Within(path: Path, own: CallId, far: CallId) {
    forall id <- path :: Made(id, own, far)
  }

  ghost predicate RefsWithin(refs: seq<Reference>, own: CallId, far: CallId) {
    forall r <- refs :: Within(r.origin, own, far)
  }

  ghost predicate FrameWithin(f: Frame, own: CallId, far: CallId) {
    RefsWithin(Carried(f), own, far) && (f.Request? ==> Within(f.path, own, far))
  }

  ghost predicate SentWithin(sent: seq<Frame>, own: CallId, far: CallId) {
    forall f <- sent :: FrameWithin(f, own, far) && (f.Request? ==> f.id !in f.path)
  }

  ghost predicate TablesWithin(x: Exports, records: seq<Record>, own: CallId, far: CallId) {
    && (forall id <- x.names :: Within(x.names[id].origin, own, far))
    && (forall id <- x.entries :: Within(x.entries[id].name.origin, own, far))
    && (forall r <- records :: Within(r.origin, own, far))
  }

  ghost predicate ThreadWithin(th: Thread, own: CallId, far: CallId) {
    && (forall path <- th.contexts :: Within(path, own, far))
    && (forall job <- th.queue :: Within(job.path, own, far) && job.number <= far.number)
    && (forall a <- th.awaiting :: Within(a.path, own, far))
    && (forall entry <- th.stack :: entry.Running? ==> Within(entry.path, own, far))
  }

  /** Every path in `e` is of calls made so far; `far` is the far end's last call. */
  ghost predicate EndWithin(e: End, far: CallId) {
    var own := CallId(e.endpoint, e.next);
    && SentWithin(e.log.sent, own, far)
    && TablesWithin(e.exports, e.imports.records, own, far)
    && ThreadWithin(e.thread, own, far)
    && (e.remote.Some? ==> e.remote.value == far.endpoint)
  }

  lemma WithinLater(path: Path, own: CallId, far: CallId, own2: CallId, far2: CallId)
    requires Within(path, own, far) && Later(own, own2) && Later(far, far2)
    ensures Within(path, own2, far2)
  {}

  predicate Later(id: CallId, id2: CallId) {
    id.endpoint == id2.endpoint && id.number <= id2.number
  }

  lemma FrameWithinLater(f: Frame, own: CallId, far: CallId, own2: CallId, far2: CallId)
    requires FrameWithin(f, own, far) && Later(own, own2) && Later(far, far2)
    ensures FrameWithin(f, own2, far2)
  {
    if f.Request? { WithinLater(f.path, own, far, own2, far2); }
    forall r <- Carried(f) ensures Within(r.origin, own2, far2) { WithinLater(r.origin, own, far, own2, far2); }
  }

  lemma SentWithinLater(sent: seq<Frame>, own: CallId, far: CallId, own2: CallId, far2: CallId)
    requires SentWithin(sent, own, far) && Later(own, own2) && Later(far, far2)
    ensures SentWithin(sent, own2, far2)
  {
    forall f <- sent ensures FrameWithin(f, own2, far2) { FrameWithinLater(f, own, far, own2, far2); }
  }

  lemma TablesWithinLater(x: Exports, records: seq<Record>, own: CallId, far: CallId, own2: CallId, far2: CallId)
    requires TablesWithin(x, records, own, far) && Later(own, own2) && Later(far, far2)
    ensures TablesWithin(x, records, own2, far2)
  {
    forall id <- x.names ensures Within(x.names[id].origin, own2, far2) {
      WithinLater(x.names[id].origin, own, far, own2, far2);
    }
    forall id <- x.entries ensures Within(x.entries[id].name.origin, own2, far2) {
      WithinLater(x.entries[id].name.origin, own, far, own2, far2);
    }
    forall r <- records ensures Within(r.origin, own2, far2) { WithinLater(r.origin, own, far, own2, far2); }
  }

  lemma ThreadWithinLater(th: Thread, own: CallId, far: CallId, own2: CallId, far2: CallId)
    requires ThreadWithin(th, own, far) && Later(own, own2) && Later(far, far2)
    ensures ThreadWithin(th, own2, far2)
  {
    forall path <- th.contexts ensures Within(path, own2, far2) { WithinLater(path, own, far, own2, far2); }
    forall job <- th.queue ensures Within(job.path, own2, far2) { WithinLater(job.path, own, far, own2, far2); }
    forall a <- th.awaiting ensures Within(a.path, own2, far2) { WithinLater(a.path, own, far, own2, far2); }
    forall entry <- th.stack | entry.Running? ensures Within(entry.path, own2, far2) {
      WithinLater(entry.path, own, far, own2, far2);
    }
  }

  /** More calls made on either side: still within. */
  lemma EndWithinLater(e: End, far: CallId, far2: CallId)
    requires EndWithin(e, far) && Later(far, far2)
    ensures EndWithin(e, far2)
  {
    var own := CallId(e.endpoint, e.next);
    SentWithinLater(e.log.sent, own, far, own, far2);
    TablesWithinLater(e.exports, e.imports.records, own, far, own, far2);
    ThreadWithinLater(e.thread, own, far, own, far2);
  }

  // ── Encoding and decoding ───────────────────────────────────────

  lemma GrantOneWithin(x: Exports, records: seq<Record>, item: Item, ctx: Context, own: CallId, far: CallId)
    requires TablesWithin(x, records, own, far) && Within(ctx.path, own, far)
    ensures var (y, r) := GrantOne(x, records, item, ctx);
      TablesWithin(y, records, own, far) && (r.Some? ==> Within(r.value.origin, own, far))
  {}

  lemma {:induction false} GrantWithin(
    x: Exports, records: seq<Record>, items: seq<Item>, ctx: Context, own: CallId, far: CallId)
    requires TablesWithin(x, records, own, far) && Within(ctx.path, own, far)
    ensures var g := Grant(x, records, items, ctx);
      TablesWithin(g.exports, records, own, far) && RefsWithin(g.refs, own, far)
    decreases |items|
  {
    if items != [] {
      var front := items[..|items| - 1];
      GrantWithin(x, records, front, ctx, own, far);
      var g := Grant(x, records, front, ctx);
      if g.ok { GrantOneWithin(g.exports, records, items[|items| - 1], ctx, own, far); }
    }
  }

  lemma {:induction false} RollbackWithin(x: Exports, records: seq<Record>, ids: seq<nat>, own: CallId, far: CallId)
    requires TablesWithin(x, records, own, far)
    ensures TablesWithin(Rollback(x, ids), records, own, far)
    decreases |ids|
  {
    if ids != [] { RollbackWithin(x, records, ids[..|ids| - 1], own, far); }
  }

  lemma EncodeWithin(
    x: Exports, records: seq<Record>, items: seq<Item>, encodes: bool, ctx: Context, own: CallId, far: CallId)
    requires TablesWithin(x, records, own, far) && Within(ctx.path, own, far)
    ensures var (y, refs) := Encode(x, records, items, encodes, ctx);
      TablesWithin(y, records, own, far) && (refs.Some? ==> RefsWithin(refs.value, own, far))
  {
    var g := Grant(x, records, items, ctx);
    GrantWithin(x, records, items, ctx, own, far);
    RollbackWithin(g.exports, records, g.ids, own, far);
  }

  ghost predicate RecordsWithin(records: seq<Record>, own: CallId, far: CallId) {
    forall r <- records :: Within(r.origin, own, far)
  }

  lemma {:induction false} DecodeWithin(
    x: Exports, m: Imports, refs: seq<Reference>, host: bool, own: CallId, far: CallId)
    requires RecordsWithin(m.records, own, far) && RefsWithin(refs, own, far)
    ensures RecordsWithin(Decode(x, m, refs, host).imports.records, own, far)
    decreases |refs|
  {
    if refs != [] {
      DecodeWithin(x, m, refs[..|refs| - 1], host, own, far);
      assert refs[|refs| - 1] in refs;
      DecodeOneWithin(x, Decode(x, m, refs[..|refs| - 1], host), refs[|refs| - 1], host, own, far);
    }
  }

  lemma DecodeOneWithin(x: Exports, d: Decoding, r: Reference, host: bool, own: CallId, far: CallId)
    requires RecordsWithin(d.imports.records, own, far) && Within(r.origin, own, far)
    ensures RecordsWithin(DecodeOne(x, d, r, host).imports.records, own, far)
  {
    var records := DecodeOne(x, d, r, host).imports.records;
    forall s <- records ensures Within(s.origin, own, far) {
      var k :| 0 <= k < |records| && records[k] == s;
      if k < |d.imports.records| { assert d.imports.records[k] in d.imports.records; }
    }
  }

  lemma {:induction false} DismissWithin(m: Imports, imported: seq<nat>, own: CallId, far: CallId)
    requires RecordsWithin(m.records, own, far)
    ensures RecordsWithin(Dismiss(m, imported).0.records, own, far)
    decreases |imported|
  {
    if imported != [] {
      var k := imported[0];
      var one := GiveSome(m, k, Count(imported, k)).0;
      if k < |m.records| { assert m.records[k] in m.records; }
      forall s <- one.records ensures Within(s.origin, own, far) {
        var i :| 0 <= i < |one.records| && one.records[i] == s;
        assert m.records[i] in m.records;
      }
      DismissWithin(one, Without(imported[1..], k), own, far);
    }
  }

  lemma TakeWithin(x: Exports, m: Imports, payload: Payload, host: bool, own: CallId, far: CallId)
    requires RecordsWithin(m.records, own, far) && RefsWithin(payload.refs, own, far)
    ensures RecordsWithin(Take(x, m, payload, host).imports.records, own, far)
  {
    DecodeWithin(x, m, payload.refs, host, own, far);
    var d := Decode(x, m, payload.refs, host);
    DismissWithin(d.imports, d.imported, own, far);
  }
}
