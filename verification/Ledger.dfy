/** What the reference tables of one session say about the frames it sent and received.
    None of it depends on the far end: it holds of one session whatever it is sent. */
module Ledger {
  import opened Wire
  import opened References

  // ── The books ───────────────────────────────────────────────────

  /** Every grant sent was given back or is still counted. */
  ghost predicate ExportBook(x: Exports, sent: seq<Frame>, got: seq<Frame>) {
    forall id: nat :: GrantsOf(x, id) + Total(Released(id), got) == Total(Granted(id), sent)
  }

  /** Every grant received was given back or is still held. */
  ghost predicate ImportBook(m: Imports, sent: seq<Frame>, got: seq<Frame>) {
    forall id: nat :: Held(m.records, id) + Total(Released(id), sent) == Total(Granted(id), got)
  }

  /** Every reference sent carries what its id names. */
  ghost predicate AllNamed(x: Exports, refs: set<Reference>) {
    forall r <- refs :: Named(x, r)
  }

  ghost predicate Named(x: Exports, r: Reference) {
    r.id in x.names && x.names[r.id].value.kind == r.kind && x.names[r.id].origin == r.origin
  }

  /** A reference of this kind was received. */
  ghost predicate Heard(got: seq<Frame>, id: nat, kind: Kind) {
    exists origin: Path :: Reference(id, kind, false, origin) in Offered(got)
  }

  /** With `before` sent, `id` was received as a `kind`, and not all of it was given back. */
  ghost predicate Owing(before: seq<Frame>, got: seq<Frame>, id: nat, kind: Kind) {
    Total(Released(id), before) < Total(Granted(id), got) && Heard(got, id, kind)
  }

  /** Every reference of the far end's that `f` uses is still held when it is sent; what it
      gives back is something. */
  ghost predicate FrameUses(before: seq<Frame>, f: Frame, got: seq<Frame>) {
    && (forall r <- Carried(f) :: r.home ==> Owing(before, got, r.id, r.kind))
    && (f.Request? && !f.op.Invoke? ==> Owing(before, got, f.op.reference, TargetKind(f.op)))
    && (f.Release? ==> f.count >= 1)
  }

  ghost predicate AllUses(sent: seq<Frame>, got: seq<Frame>) {
    forall i :: 0 <= i < |sent| ==> FrameUses(sent[..i], sent[i], got)
  }

  ghost predicate Balanced(x: Exports, m: Imports, sent: seq<Frame>, got: seq<Frame>) {
    && ExportsOk(x) && ImportsOk(m)
    && ExportBook(x, sent, got) && ImportBook(m, sent, got)
    && AllNamed(x, Offered(sent)) && AllKnown(Offered(got), m.records)
    && AllUses(sent, got)
  }

  // ── More frames ─────────────────────────────────────────────────

  lemma OwingLater(before: seq<Frame>, got: seq<Frame>, f: Frame, id: nat, kind: Kind)
    requires Owing(before, got, id, kind)
    ensures Owing(before, got + [f], id, kind)
  {
    TotalOne(Granted(id), got, f);
    OfferedOne(got, f);
    var origin: Path :| Reference(id, kind, false, origin) in Offered(got);
    assert Reference(id, kind, false, origin) in Offered(got + [f]);
  }

  lemma UsesLater(sent: seq<Frame>, got: seq<Frame>, f: Frame)
    requires AllUses(sent, got)
    ensures AllUses(sent, got + [f])
  {
    forall i | 0 <= i < |sent| ensures FrameUses(sent[..i], sent[i], got + [f]) {
      assert FrameUses(sent[..i], sent[i], got);
      forall r | r in Carried(sent[i]) && r.home ensures Owing(sent[..i], got + [f], r.id, r.kind) {
        OwingLater(sent[..i], got, f, r.id, r.kind);
      }
      if sent[i].Request? && !sent[i].op.Invoke? {
        OwingLater(sent[..i], got, f, sent[i].op.reference, TargetKind(sent[i].op));
      }
    }
  }

  lemma UsesOne(sent: seq<Frame>, got: seq<Frame>, f: Frame)
    requires AllUses(sent, got) && FrameUses(sent, f, got)
    ensures AllUses(sent + [f], got)
  {
    forall i | 0 <= i < |sent + [f]| ensures FrameUses((sent + [f])[..i], (sent + [f])[i], got) {
      assert (sent + [f])[..i] == sent[..i];
      if i == |sent| { assert sent[..i] == sent; }
    }
  }

  /** A record not given back is owed. */
  lemma HeldIsOwing(m: Imports, sent: seq<Frame>, got: seq<Frame>, k: nat)
    requires ImportsOk(m) && ImportBook(m, sent, got) && AllKnown(Offered(got), m.records)
    requires k < |m.records| && !m.records[k].released
    ensures Owing(sent, got, m.records[k].id, m.records[k].kind)
  {
    var r := m.records[k];
    HeldAtLeast(m.records, k);
    assert Held(m.records, r.id) + Total(Released(r.id), sent) == Total(Granted(r.id), got);
    assert Known(Offered(got), r);
    assert Reference(r.id, r.kind, false, r.origin) in Offered(got);
  }

  lemma NamedLater(x: Exports, y: Exports, refs: set<Reference>)
    requires AllNamed(x, refs) && Extends(x, y)
    ensures AllNamed(y, refs)
  {
    forall r <- refs ensures Named(y, r) {
      assert Named(x, r);
    }
  }

  // ── Sending ─────────────────────────────────────────────────────

  /** A frame that grants nothing, gives nothing back and uses nothing. */
  predicate Bare(f: Frame) {
    f.Throw? || f.Hello?
  }

  lemma SendBare(x: Exports, m: Imports, sent: seq<Frame>, got: seq<Frame>, f: Frame)
    requires Balanced(x, m, sent, got) && Bare(f)
    ensures Balanced(x, m, sent + [f], got)
  {
    forall id: nat
      ensures Total(Granted(id), sent + [f]) == Total(Granted(id), sent) &&
        Total(Released(id), sent + [f]) == Total(Released(id), sent)
    {
      TotalOne(Granted(id), sent, f);
      TotalOne(Released(id), sent, f);
    }
    OfferedOne(sent, f);
    UsesOne(sent, got, f);
  }

  /** Only what is not on the books changed. */
  lemma OtherTables(x: Exports, y: Exports, m: Imports, sent: seq<Frame>, got: seq<Frame>)
    requires Balanced(x, m, sent, got) && ExportsOk(y) && Extends(x, y) && y.entries == x.entries
    ensures Balanced(y, m, sent, got)
  {
    NamedLater(x, y, Offered(sent));
    forall id: nat ensures GrantsOf(y, id) + Total(Released(id), got) == Total(Granted(id), sent) {
      assert GrantsOf(x, id) + Total(Released(id), got) == Total(Granted(id), sent);
    }
  }

  /** What the references of an encoded payload stand for is named, or held. */
  lemma EncodedUses(x: Exports, m: Imports, sent: seq<Frame>, got: seq<Frame>, items: seq<Item>, refs: seq<Reference>)
    requires ImportsOk(m) && ImportBook(m, sent, got) && AllKnown(Offered(got), m.records)
    requires |refs| == |items| && forall i :: 0 <= i < |items| ==> Stands(x, m.records, refs[i], items[i])
    ensures forall r <- refs :: r.home ==> Owing(sent, got, r.id, r.kind)
    ensures forall r <- refs :: !r.home ==> Named(x, r)
  {
    forall r <- refs ensures (r.home ==> Owing(sent, got, r.id, r.kind)) && (!r.home ==> Named(x, r)) {
      var i :| 0 <= i < |refs| && refs[i] == r;
      assert Stands(x, m.records, refs[i], items[i]);
      if r.home { HeldIsOwing(m, sent, got, items[i].record); }
    }
  }

  /** Sending what was encoded: the grants written are the grants counted. */
  lemma SendEncoded(x: Exports, y: Exports, m: Imports, sent: seq<Frame>, got: seq<Frame>, items: seq<Item>, f: Frame)
    requires Balanced(x, m, sent, got) && ExportsOk(y) && Extends(x, y)
    requires f.Request? || f.Return?
    requires |Carried(f)| == |items| && forall i :: 0 <= i < |items| ==> Stands(y, m.records, Carried(f)[i], items[i])
    requires forall id: nat :: GrantsOf(y, id) == GrantsOf(x, id) + Grants(Carried(f), id)
    requires f.Request? && !f.op.Invoke? ==> Owing(sent, got, f.op.reference, TargetKind(f.op))
    ensures Balanced(y, m, sent + [f], got)
  {
    EncodedUses(y, m, sent, got, items, Carried(f));
    NamedLater(x, y, Offered(sent));
    OfferedOne(sent, f);
    UsesOne(sent, got, f);
    forall id: nat ensures GrantsOf(y, id) + Total(Released(id), got) == Total(Granted(id), sent + [f]) {
      TotalOne(Granted(id), sent, f);
      assert GrantsOf(x, id) + Total(Released(id), got) == Total(Granted(id), sent);
    }
    forall id: nat ensures Total(Released(id), sent + [f]) == Total(Released(id), sent) {
      TotalOne(Released(id), sent, f);
    }
  }

  // ── Giving back ─────────────────────────────────────────────────

  ghost predicate OnlyReleases(frames: seq<Frame>) {
    forall i :: 0 <= i < |frames| ==> frames[i].Release? && frames[i].count >= 1
  }

  lemma {:induction false} ReleasesGrantNothing(frames: seq<Frame>, id: nat)
    requires OnlyReleases(frames)
    ensures Total(Granted(id), frames) == 0 && Offered(frames) == {}
    decreases |frames|
  {
    if frames != [] { ReleasesGrantNothing(frames[..|frames| - 1], id); }
  }

  lemma {:induction false} OfferedSplit(xs: seq<Frame>, ys: seq<Frame>)
    requires OnlyReleases(ys)
    ensures Offered(xs + ys) == Offered(xs)
    decreases |ys|
  {
    if ys == [] {
      assert xs + ys == xs;
    } else {
      OfferedSplit(xs, ys[..|ys| - 1]);
      assert xs + ys == (xs + ys[..|ys| - 1]) + [ys[|ys| - 1]];
      OfferedOne(xs + ys[..|ys| - 1], ys[|ys| - 1]);
    }
  }

  lemma {:induction false} UsesReleases(sent: seq<Frame>, got: seq<Frame>, frames: seq<Frame>)
    requires AllUses(sent, got) && OnlyReleases(frames)
    ensures AllUses(sent + frames, got)
    decreases |frames|
  {
    if frames == [] {
      assert sent + frames == sent;
    } else {
      var front, last := frames[..|frames| - 1], frames[|frames| - 1];
      UsesReleases(sent, got, front);
      UsesOne(sent + front, got, last);
      assert sent + frames == (sent + front) + [last];
    }
  }

  /** Sending releases: what is held went down by what they give back. */
  lemma SendReleases(x: Exports, m: Imports, n: Imports, sent: seq<Frame>, got: seq<Frame>, frames: seq<Frame>)
    requires Balanced(x, m, sent, got) && Gives(m, n, frames)
    ensures Balanced(x, n, sent + frames, got)
  {
    OfferedSplit(sent, frames);
    UsesReleases(sent, got, frames);
    forall id: nat ensures Total(Granted(id), sent + frames) == Total(Granted(id), sent)
        && Held(n.records, id) + Total(Released(id), sent + frames) == Total(Granted(id), got) {
      TotalSplit(Granted(id), sent, frames);
      TotalSplit(Released(id), sent, frames);
      ReleasesGrantNothing(frames, id);
      assert Held(m.records, id) + Total(Released(id), sent) == Total(Granted(id), got);
      assert Held(n.records, id) + Total(Released(id), frames) == Held(m.records, id);
    }
    forall k | 0 <= k < |n.records| ensures Known(Offered(got), n.records[k]) {
      assert Known(Offered(got), m.records[k]) && Alike(m.records[k], n.records[k]);
    }
  }

  /** A proxy collected: nothing on the books changes. */
  lemma CollectKeeps(x: Exports, m: Imports, k: nat, sent: seq<Frame>, got: seq<Frame>)
    requires Balanced(x, m, sent, got) && k < |m.records|
    ensures Balanced(x, m.(records := m.records[k := m.records[k].(live := false)]), sent, got)
  {
    var n := m.(records := m.records[k := m.records[k].(live := false)]);
    forall id: nat ensures Held(n.records, id) + Total(Released(id), sent) == Total(Granted(id), got) {
      HeldUpdate(m.records, k, n.records[k], id);
      assert Held(m.records, id) + Total(Released(id), sent) == Total(Granted(id), got);
    }
    forall i | 0 <= i < |n.records| ensures Known(Offered(got), n.records[i]) {
      assert Known(Offered(got), m.records[i]);
    }
  }

  // ── Receiving ───────────────────────────────────────────────────

  /** A frame received that carries no reference and gives none back. */
  lemma GotBare(x: Exports, m: Imports, sent: seq<Frame>, got: seq<Frame>, f: Frame)
    requires Balanced(x, m, sent, got)
    requires Carried(f) == [] && !f.Release?
    ensures Balanced(x, m, sent, got + [f])
  {
    forall id: nat
      ensures Total(Granted(id), got + [f]) == Total(Granted(id), got) &&
        Total(Released(id), got + [f]) == Total(Released(id), got)
    {
      TotalOne(Granted(id), got, f);
      TotalOne(Released(id), got, f);
    }
    OfferedOne(got, f);
    UsesLater(sent, got, f);
  }

  lemma KnownLater(offers: set<Reference>, more: set<Reference>, records: seq<Record>)
    requires AllKnown(offers, records) && offers <= more
    ensures AllKnown(more, records)
  {
    forall k | 0 <= k < |records| ensures Known(more, records[k]) {
      assert Known(offers, records[k]);
    }
  }

  /** The far end gave grants back. */
  lemma GotRelease(x: Exports, m: Imports, sent: seq<Frame>, got: seq<Frame>, f: Frame)
    requires Balanced(x, m, sent, got)
    requires f.Release? && f.reference in x.entries && 1 <= f.count <= x.entries[f.reference].grants
    ensures Balanced(TakeBack(x, f.reference, f.count), m, sent, got + [f])
  {
    var y := TakeBack(x, f.reference, f.count);
    TakeBackEffect(x, f.reference, f.count);
    forall id: nat ensures GrantsOf(y, id) + Total(Released(id), got + [f]) == Total(Granted(id), sent)
        && Total(Granted(id), got + [f]) == Total(Granted(id), got) {
      TotalOne(Released(id), got, f);
      TotalOne(Granted(id), got, f);
      assert GrantsOf(x, id) + Total(Released(id), got) == Total(Granted(id), sent);
    }
    OfferedOne(got, f);
    UsesLater(sent, got, f);
    NamedLater(x, y, Offered(sent));
  }

  /** The books of what is held, once a payload was taken. */
  lemma TakeBooks(x: Exports, m: Imports, sent: seq<Frame>, got: seq<Frame>, f: Frame, host: bool, payload: Payload)
    requires Balanced(x, m, sent, got)
    requires (f.Request? || f.Return?) && Carried(f) == payload.refs && !Take(x, m, payload, host).fault
    ensures var k := Take(x, m, payload, host);
      && ImportsOk(k.imports) && AllKnown(Offered(got + [f]), k.imports.records)
      && ImportBook(k.imports, sent + k.releases, got + [f]) && OnlyReleases(k.releases)
  {
    var k := Take(x, m, payload, host);
    OfferedOne(got, f);
    KnownLater(Offered(got), Offered(got + [f]), m.records);
    TakeEffect(x, m, payload, host, Offered(got + [f]));
    forall id: nat
      ensures Held(k.imports.records, id) + Total(Released(id), sent + k.releases) == Total(Granted(id), got + [f])
    {
      TotalSplit(Released(id), sent, k.releases);
      TotalOne(Granted(id), got, f);
      assert Held(m.records, id) + Total(Released(id), sent) == Total(Granted(id), got);
    }
  }

  /** Receiving a payload, refused or not: the books stay. */
  lemma GotPayload(x: Exports, m: Imports, sent: seq<Frame>, got: seq<Frame>, f: Frame, host: bool, payload: Payload)
    requires Balanced(x, m, sent, got)
    requires (f.Request? || f.Return?) && Carried(f) == payload.refs && !Take(x, m, payload, host).fault
    ensures var k := Take(x, m, payload, host); Balanced(x, k.imports, sent + k.releases, got + [f])
  {
    var k := Take(x, m, payload, host);
    TakeBooks(x, m, sent, got, f, host, payload);
    UsesLater(sent, got, f);
    UsesReleases(sent, got + [f], k.releases);
    OfferedSplit(sent, k.releases);
    forall id: nat ensures GrantsOf(x, id) + Total(Released(id), got + [f]) == Total(Granted(id), sent + k.releases) {
      TotalSplit(Granted(id), sent, k.releases);
      ReleasesGrantNothing(k.releases, id);
      TotalOne(Released(id), got, f);
      assert GrantsOf(x, id) + Total(Released(id), got) == Total(Granted(id), sent);
    }
  }
}
