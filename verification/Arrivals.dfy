/** What of the references that arrive is a fault, what is refused, and what a refused value leaves:
    nothing. */
module Arrivals {
  import opened Wire
  import opened References

  // ── Which references are sound ──────────────────────────────────

  /** A reference to a plugin, that this side cannot use. */
  predicate ForOthers(r: Reference, host: bool) {
    !r.home && r.kind.Plugin? && !host
  }

  /** A reference that becomes a proxy here, or is one. */
  predicate Comes(r: Reference, host: bool) {
    !r.home && !ForOthers(r, host)
  }

  predicate Agree(r: Reference, s: Reference) {
    r.kind == s.kind && r.origin == s.origin
  }

  /** How often `id` comes among `refs`. */
  function Coming(refs: seq<Reference>, id: nat, host: bool): nat {
    if refs == [] then 0
    else
      var last := refs[|refs| - 1];
      Coming(refs[..|refs| - 1], id, host) + if Comes(last, host) && last.id == id then 1 else 0
  }

  /** The grants the proxy of `id` has, if there is one. */
  function Base(m: Imports, id: nat): nat {
    var k := Current(m, id);
    if k.Some? then m.records[k.value].grants else 0
  }

  /** The proxy there is, if any, is of the same kind and origin. */
  predicate Fits(m: Imports, r: Reference) {
    var k := Current(m, r.id);
    k.Some? ==> m.records[k.value].kind == r.kind && m.records[k.value].origin == r.origin
  }

  /** What this side allows of one of the references in a frame: an id in range; of its own, one
      that is exported as that kind; of the far end's, one that says what all others of the id do,
      here and in the frame, and whose grants can be counted. */
  ghost predicate Sound1(x: Exports, m: Imports, refs: seq<Reference>, host: bool, r: Reference) {
    && 1 <= r.id <= MAX_SAFE
    && (r.home ==> Exported(x, r.id, r.kind))
    && (Comes(r, host) ==>
        && Fits(m, r) && Base(m, r.id) + Coming(refs, r.id, host) <= MAX_SAFE
        && forall s <- refs :: Comes(s, host) && s.id == r.id ==> Agree(r, s))
  }

  ghost predicate RefsSound(x: Exports, m: Imports, refs: seq<Reference>, host: bool) {
    forall r <- refs :: Sound1(x, m, refs, host, r)
  }

  // ── One at a time ───────────────────────────────────────────────

  predicate CanDecode(x: Exports, m: Imports, r: Reference, host: bool) {
    && 1 <= r.id <= MAX_SAFE
    && (r.home ==> Exported(x, r.id, r.kind))
    && (Comes(r, host) ==> Fits(m, r) && Base(m, r.id) + 1 <= MAX_SAFE)
  }

  lemma DecodeOneExactly(x: Exports, d: Decoding, r: Reference, host: bool)
    requires !d.fault
    ensures DecodeOne(x, d, r, host).fault <==> !CanDecode(x, d.imports, r, host)
    ensures !DecodeOne(x, d, r, host).fault ==>
      DecodeOne(x, d, r, host).refused == (d.refused || ForOthers(r, host))
  {}

  /** `n` has what `m` had, and of `r` one more. */
  ghost predicate Has(m: Imports, n: Imports, r: Reference, host: bool, s: Reference) {
    && Base(n, s.id) == Base(m, s.id) + (if Comes(r, host) && r.id == s.id then 1 else 0)
    && (Fits(n, s) <==> Fits(m, s) && (Comes(r, host) && r.id == s.id ==> Agree(r, s)))
  }

  lemma DecodedHas(x: Exports, d: Decoding, r: Reference, host: bool, s: Reference)
    requires ImportsOk(d.imports) && !d.fault && !DecodeOne(x, d, r, host).fault
    ensures Has(d.imports, DecodeOne(x, d, r, host).imports, r, host, s)
  {}

  // ── All of them ─────────────────────────────────────────────────

  ghost predicate HasAll(m: Imports, n: Imports, refs: seq<Reference>, host: bool) {
    forall s: Reference ::
      && Base(n, s.id) == Base(m, s.id) + Coming(refs, s.id, host)
      && (Fits(n, s) <==> Fits(m, s) && forall r <- refs :: Comes(r, host) && r.id == s.id ==> Agree(r, s))
  }

  lemma ComingMore(refs: seq<Reference>, last: Reference, id: nat, host: bool)
    ensures Coming(refs + [last], id, host) ==
      Coming(refs, id, host) + if Comes(last, host) && last.id == id then 1 else 0
  {
    assert (refs + [last])[..|refs|] == refs;
  }

  lemma HasMore(m: Imports, n: Imports, o: Imports, refs: seq<Reference>, last: Reference, host: bool)
    requires HasAll(m, n, refs, host) && forall s: Reference :: Has(n, o, last, host, s)
    ensures HasAll(m, o, refs + [last], host)
  {
    hide Base, Fits, Coming, Comes;
    forall s: Reference
      ensures Base(o, s.id) == Base(m, s.id) + Coming(refs + [last], s.id, host)
      ensures Fits(o, s) <==> Fits(m, s) && forall r <- refs + [last] :: Comes(r, host) && r.id == s.id ==> Agree(r, s)
    {
      ComingMore(refs, last, s.id, host);
      assert Has(n, o, last, host, s);
      assert forall r :: r in refs + [last] <==> r in refs || r == last;
    }
  }

  lemma SoundMore(x: Exports, m: Imports, n: Imports, refs: seq<Reference>, last: Reference, host: bool)
    requires RefsSound(x, m, refs, host) && HasAll(m, n, refs, host)
    ensures RefsSound(x, m, refs + [last], host) <==> CanDecode(x, n, last, host)
  {
    var more := refs + [last];
    hide Base, Fits, Coming, Comes, Exported;
    assert forall r :: r in more <==> r in refs || r == last;
    forall r: Reference ensures Coming(more, r.id, host) ==
      Coming(refs, r.id, host) + if Comes(last, host) && last.id == r.id then 1 else 0
    {
      ComingMore(refs, last, r.id, host);
    }
    forall r <- refs ensures Sound1(x, m, refs, host, r) {}
    assert last in more;
    if RefsSound(x, m, more, host) { assert Sound1(x, m, more, host, last); }
    if CanDecode(x, n, last, host) {
      forall r <- more ensures Sound1(x, m, more, host, r) {}
    }
  }

  lemma SoundFewer(x: Exports, m: Imports, refs: seq<Reference>, last: Reference, host: bool)
    requires RefsSound(x, m, refs + [last], host)
    ensures RefsSound(x, m, refs, host)
  {
    var more := refs + [last];
    assert forall r :: r in more <==> r in refs || r == last;
    forall r <- refs ensures Sound1(x, m, refs, host, r) {
      assert Sound1(x, m, more, host, r);
      ComingMore(refs, last, r.id, host);
    }
  }

  lemma {:induction false} DecodeExactly(x: Exports, m: Imports, refs: seq<Reference>, host: bool)
    requires ImportsOk(m)
    ensures var d := Decode(x, m, refs, host);
      && (d.fault <==> !RefsSound(x, m, refs, host))
      && (!d.fault ==> HasAll(m, d.imports, refs, host) && (d.refused <==> exists r <- refs :: ForOthers(r, host)))
    decreases |refs|
  {
    hide DecodeOne, RefsSound, HasAll, Has, CanDecode, ImportsOk, ForOthers;
    if refs == [] {
      NoneComes(x, m, host);
    } else {
      var front, last := refs[..|refs| - 1], refs[|refs| - 1];
      assert refs == front + [last];
      DecodeExactly(x, m, front, host);
      if RefsSound(x, m, refs, host) { SoundFewer(x, m, front, last, host); }
      var d := Decode(x, m, front, host);
      if !d.fault {
        DecodeEffect(x, m, front, host);
        SoundMore(x, m, d.imports, front, last, host);
        DecodeOneExactly(x, d, last, host);
        if !DecodeOne(x, d, last, host).fault {
          forall s: Reference ensures Has(d.imports, DecodeOne(x, d, last, host).imports, last, host, s) {
            DecodedHas(x, d, last, host, s);
          }
          HasMore(m, d.imports, DecodeOne(x, d, last, host).imports, front, last, host);
        }
      }
    }
  }

  lemma NoneComes(x: Exports, m: Imports, host: bool)
    ensures RefsSound(x, m, [], host) && HasAll(m, m, [], host)
  {}

  // ── What a refused value gives back ─────────────────────────────

  /** How often a record of `id` was imported. */
  function ImportedOf(records: seq<Record>, imported: seq<nat>, id: nat): nat {
    if imported == [] then 0
    else
      ImportedOf(records, imported[1..], id) +
        if imported[0] < |records| && records[imported[0]].id == id then 1 else 0
  }

  /** What was imported can be given back: each record has the grants it got. */
  ghost predicate CanGive(records: seq<Record>, imported: seq<nat>) {
    forall k <- imported :: k < |records| && !records[k].released && Count(imported, k) <= records[k].grants
  }

  lemma {:induction false} CountMore(ks: seq<nat>, last: nat, k: nat)
    ensures Count(ks + [last], k) == Count(ks, k) + if last == k then 1 else 0
    decreases |ks|
  {
    if ks == [] {
      assert ks + [last] == [last] && Count([last][1..], k) == 0;
    } else {
      assert (ks + [last])[1..] == ks[1..] + [last];
      CountMore(ks[1..], last, k);
    }
  }

  lemma {:induction false} CountNone(ks: seq<nat>, k: nat)
    ensures Count(ks, k) == 0 <==> k !in ks
    decreases |ks|
  {
    if ks != [] {
      CountNone(ks[1..], k);
      assert ks == [ks[0]] + ks[1..];
    }
  }

  lemma {:induction false} ImportedMore(records: seq<Record>, imported: seq<nat>, k: nat, id: nat)
    requires k < |records|
    ensures ImportedOf(records, imported + [k], id) ==
      ImportedOf(records, imported, id) + if records[k].id == id then 1 else 0
    decreases |imported|
  {
    if imported == [] {
      assert imported + [k] == [k] && ImportedOf(records, [k][1..], id) == 0;
    } else {
      assert (imported + [k])[1..] == imported[1..] + [k];
      ImportedMore(records, imported[1..], k, id);
    }
  }

  /** Records keep their ids. */
  ghost predicate SameIds(records: seq<Record>, later: seq<Record>) {
    |records| <= |later| && forall k :: 0 <= k < |records| ==> later[k].id == records[k].id
  }

  lemma {:induction false} ImportedLater(records: seq<Record>, later: seq<Record>, imported: seq<nat>, id: nat)
    requires SameIds(records, later) && forall k <- imported :: k < |records|
    ensures ImportedOf(later, imported, id) == ImportedOf(records, imported, id)
    decreases |imported|
  {
    if imported != [] {
      assert imported[0] in imported && forall k <- imported[1..] :: k in imported;
      ImportedLater(records, later, imported[1..], id);
    }
  }

  /** One reference decoded imports one record of its id, if it is the far end's. */
  lemma DecodeOneImports(x: Exports, d: Decoding, r: Reference, host: bool) returns (k: nat)
    requires ImportsOk(d.imports) && CanGive(d.imports.records, d.imported)
    requires !d.fault && !DecodeOne(x, d, r, host).fault
    ensures var e := DecodeOne(x, d, r, host);
      && SameIds(d.imports.records, e.imports.records)
      && (if r.home then e == d
          else
            && k < |e.imports.records| && e.imports.records[k].id == r.id && !e.imports.records[k].released
            && e.imported == d.imported + [k]
            && e.imports.records[k].grants ==
               (if k < |d.imports.records| then d.imports.records[k].grants + 1 else 1)
            && (k >= |d.imports.records| ==> k == |d.imports.records|)
            && (forall i :: 0 <= i < |d.imports.records| && i != k ==> e.imports.records[i] == d.imports.records[i]))
  {
    var m := d.imports;
    k := if !(r.kind.Plugin? && !host) && Current(m, r.id).Some? then Current(m, r.id).value else |m.records|;
  }

  lemma CanGiveMore(x: Exports, d: Decoding, r: Reference, host: bool, id: nat)
    requires ImportsOk(d.imports) && CanGive(d.imports.records, d.imported)
    requires !d.fault && !DecodeOne(x, d, r, host).fault
    ensures var e := DecodeOne(x, d, r, host);
      && CanGive(e.imports.records, e.imported)
      && ImportedOf(e.imports.records, e.imported, id) ==
         ImportedOf(d.imports.records, d.imported, id) + if !r.home && r.id == id then 1 else 0
  {
    var e := DecodeOne(x, d, r, host);
    var k := DecodeOneImports(x, d, r, host);
    hide DecodeOne, ImportsOk, Count, ImportedOf;
    ImportedLater(d.imports.records, e.imports.records, d.imported, id);
    if !r.home {
      ImportedMore(e.imports.records, d.imported, k, id);
      forall i <- e.imported
        ensures i < |e.imports.records| && !e.imports.records[i].released
        ensures Count(e.imported, i) <= e.imports.records[i].grants
      {
        CountMore(d.imported, k, i);
        if k == |d.imports.records| { CountNone(d.imported, k); }
        CountNone(d.imported, i);
      }
    }
  }

  lemma {:induction false} DecodeCanGive(x: Exports, m: Imports, refs: seq<Reference>, host: bool, id: nat)
    requires ImportsOk(m) && !Decode(x, m, refs, host).fault
    ensures var d := Decode(x, m, refs, host);
      CanGive(d.imports.records, d.imported) && ImportedOf(d.imports.records, d.imported, id) == Grants(refs, id)
    decreases |refs|
  {
    hide DecodeOne, ImportsOk, CanGive;
    if refs == [] {
      NothingToGive(m.records);
    } else {
      DecodeCanGive(x, m, refs[..|refs| - 1], host, id);
      DecodeEffect(x, m, refs[..|refs| - 1], host);
      CanGiveMore(x, Decode(x, m, refs[..|refs| - 1], host), refs[|refs| - 1], host, id);
    }
  }

  lemma NothingToGive(records: seq<Record>)
    ensures CanGive(records, [])
  {}

  lemma {:induction false} WithoutCounts(ks: seq<nat>, k: nat, i: nat)
    ensures Count(Without(ks, k), i) == if i == k then 0 else Count(ks, i)
    ensures i in Without(ks, k) <==> i in ks && i != k
    decreases |ks|
  {
    if ks != [] {
      WithoutCounts(ks[1..], k, i);
      assert ks == [ks[0]] + ks[1..];
    }
  }

  lemma {:induction false} WithoutImported(records: seq<Record>, imported: seq<nat>, k: nat, id: nat)
    requires k < |records|
    ensures ImportedOf(records, imported, id) ==
      ImportedOf(records, Without(imported, k), id) + if records[k].id == id then Count(imported, k) else 0
    decreases |imported|
  {
    if imported != [] { WithoutImported(records, imported[1..], k, id); }
  }

  lemma GiveSomeExactly(m: Imports, k: nat, count: nat)
    requires k < |m.records| && !m.records[k].released && 1 <= count <= m.records[k].grants
    ensures var (n, frames) := GiveSome(m, k, count);
      && frames == [Release(m.records[k].id, count)] && |n.records| == |m.records|
      && n.records[k].id == m.records[k].id
      && (forall i :: 0 <= i < |m.records| && i != k ==> n.records[i] == m.records[i])
  {}

  /** Everything imported is given back, each reference as often as it was. */
  lemma {:induction false} DismissGives(m: Imports, imported: seq<nat>, id: nat)
    requires ImportsOk(m) && CanGive(m.records, imported)
    ensures Total(Released(id), Dismiss(m, imported).1) == ImportedOf(m.records, imported, id)
    decreases |imported|
  {
    if imported != [] {
      var k, rest := imported[0], Without(imported[1..], imported[0]);
      assert k in imported;
      CountNone(imported, k);
      GiveSomeExactly(m, k, Count(imported, k));
      GiveSomeEffect(m, k, Count(imported, k));
      var (one, first) := GiveSome(m, k, Count(imported, k));
      assert Without(imported, k) == rest;
      hide Count, Without, GiveSome, ImportsOk, ImportedOf;
      forall i <- rest
        ensures i in imported && i < |one.records| && !one.records[i].released
        ensures Count(rest, i) <= one.records[i].grants
      {
        WithoutCounts(imported, k, i);
      }
      DismissGives(one, rest, id);
      WithoutImported(m.records, imported, k, id);
      ImportedLater(m.records, one.records, rest, id);
      var (all, frames) := Dismiss(one, rest);
      TotalSplit(Released(id), first, frames);
      TotalOne(Released(id), [], first[0]);
      assert [] + [first[0]] == first;
      DismissIs(m, imported);
    }
  }

  lemma DismissIs(m: Imports, imported: seq<nat>)
    requires imported != []
    ensures var k := imported[0];
      var (one, first) := GiveSome(m, k, Count(imported, k));
      Dismiss(m, imported).1 == first + Dismiss(one, Without(imported[1..], k)).1
  {}

  /** What is taken of a payload: it is a fault exactly when its references are not sound; refused
      exactly when nothing else is wrong with it and a value in it is, or a plugin is none for this
      side. Taken, it is held; refused, it is given back, all of it, and nothing more is held than
      before. */
  lemma TakenExactly(x: Exports, m: Imports, payload: Payload, host: bool)
    requires ImportsOk(m)
    ensures var k := Take(x, m, payload, host);
      && (k.fault <==> !RefsSound(x, m, payload.refs, host))
      && (!k.fault ==> (k.refused <==> !payload.sound || exists r <- payload.refs :: ForOthers(r, host)))
      && (!k.fault ==> forall id: nat ::
          && Total(Released(id), k.releases) == (if k.refused then Grants(payload.refs, id) else 0)
          && Held(k.imports.records, id) == Held(m.records, id) + if k.refused then 0 else Grants(payload.refs, id))
  {
    var k, d := Take(x, m, payload, host), Decode(x, m, payload.refs, host);
    DecodeExactly(x, m, payload.refs, host);
    hide RefsSound, HasAll, ForOthers, Decode, Dismiss, ImportsOk;
    if !d.fault {
      DecodeEffect(x, m, payload.refs, host);
      DismissEffect(d.imports, d.imported);
      forall id: nat
        ensures Total(Released(id), k.releases) == if k.refused then Grants(payload.refs, id) else 0
        ensures Held(k.imports.records, id) == Held(m.records, id) + if k.refused then 0 else Grants(payload.refs, id)
      {
        DecodeCanGive(x, m, payload.refs, host, id);
        DismissGives(d.imports, d.imported, id);
      }
    }
  }
}
