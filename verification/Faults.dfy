/** Which frames are faults: told by what was sent and received, not by the tables. */
module Faults {
  import opened Options
  import opened Wire
  import opened References
  import opened Endpoint
  import opened Invariant
  import opened Arrivals
  import opened Protocol

  // ── What is open between the two ends ───────────────────────────

  /** The grants of a reference that the far end has not given back. */
  function Outstanding(e: End, id: nat): int {
    Total(Granted(id), e.log.sent) - Total(Released(id), e.log.got)
  }

  /** The far end can use the reference, as one of this kind. */
  predicate Lent(e: End, id: nat, kind: Kind) {
    Outstanding(e, id) > 0 && id in e.exports.names && e.exports.names[id].value.kind == kind
  }

  /** A call of this side's that is not answered. */
  predicate IsUnanswered(e: End, id: CallId) {
    id.endpoint == e.endpoint && Total(Asked(id.number), e.log.sent) > Total(Answered(id.number), e.log.got)
  }

  /** A call the far end may make: under a number of its own, after all before, of what it may use. */
  predicate IsInvocation(e: End, f: Frame)
    requires f.Request?
  {
    && e.remote == Some(f.id.endpoint) && f.id !in f.path
    && LastAsked(e.log.got) < f.id.number <= MAX_SAFE
    && match f.op
       case Invoke(_, _) => true
       case Call(reference, None) => Lent(e, reference, Function)
       case Call(reference, Some(_)) => Lent(e, reference, Object)
       case Get(reference) => Lent(e, reference, Object)
       case Await(reference) => Lent(e, reference, Future)
  }

  /** What a session does not take: a second greeting, or another than a version and an endpoint it
      can talk to; anything before the greeting; a reply to what it does not wait for; more grants
      back than there are; a call that is none; and references that are not sound. */
  ghost predicate IsFault(e: End, f: Frame) {
    match f
    case Hello(version, endpoint, _) => e.log.got != [] || version != PROTOCOL || endpoint == e.endpoint
    case Return(id, value) =>
      e.log.got == [] || !IsUnanswered(e, id) || !RefsSound(e.exports, e.imports, value.refs, e.host)
    case Throw(id) => e.log.got == [] || !IsUnanswered(e, id)
    case Release(id, count) => e.log.got == [] || !(1 <= count <= MAX_SAFE && count <= Outstanding(e, id))
    case Request(_, _, op, args) =>
      || e.log.got == [] || !IsInvocation(e, f)
      || (!op.Await? && !op.Get? && !RefsSound(e.exports, e.imports, args.refs, e.host))
  }

  lemma GrantsAreOutstanding(e: End, clock: nat, id: nat)
    requires Sound(e, clock)
    ensures GrantsOf(e.exports, id) == Outstanding(e, id)
    ensures forall kind :: Exported(e.exports, id, kind) <==> Lent(e, id, kind)
  {
    assert GrantsOf(e.exports, id) + Total(Released(id), e.log.got) == Total(Granted(id), e.log.sent);
    assert id in e.exports.entries ==> e.exports.entries[id].grants >= 1;
  }

  lemma PendingAreUnanswered(e: End, clock: nat, id: CallId)
    requires Sound(e, clock)
    ensures id.endpoint == e.endpoint && id.number in e.pending <==> IsUnanswered(e, id)
  {
    assert (if id.number in e.pending then 1 else 0) + Total(Answered(id.number), e.log.got) ==
      Total(Asked(id.number), e.log.sent);
  }

  lemma Basics(e: End, clock: nat)
    requires Sound(e, clock)
    ensures e.received == LastAsked(e.log.got) && (e.remote.Some? <==> e.log.got != [])
    ensures ExportsOk(e.exports) && ImportsOk(e.imports)
  {}

  lemma ReplyFaults(e: End, f: Frame, clock: nat)
    requires Sound(e, clock) && (f.Return? || f.Throw?)
    ensures Receive(e, f, clock).1 <==> IsFault(e, f)
  {
    Basics(e, clock);
    PendingAreUnanswered(e, clock, f.id);
    var payload := if f.Return? then f.value else Payload([], true);
    TakenExactly(e.exports, e.imports, payload, e.host);
    hide Sound, Take, ExportsOk, ImportsOk, IsUnanswered;
    assert f.Throw? ==> RefsSound(e.exports, e.imports, [], e.host);
    hide RefsSound;
  }

  lemma ReleaseFaults(e: End, f: Frame, clock: nat)
    requires Sound(e, clock) && f.Release?
    ensures Receive(e, f, clock).1 <==> IsFault(e, f)
  {
    Basics(e, clock);
    GrantsAreOutstanding(e, clock, f.reference);
    hide Sound, ExportsOk, ImportsOk, Outstanding;
  }

  lemma ArgsFault(e: End, f: Frame)
    requires ImportsOk(e.imports) && f.Request?
    ensures TakeArgs(e, f.op, f.args).fault <==>
      !f.op.Await? && !f.op.Get? && !RefsSound(e.exports, e.imports, f.args.refs, e.host)
  {
    hide Take, RefsSound, ImportsOk;
    TakenExactly(e.exports, e.imports, f.args, e.host);
  }

  lemma RequestFaults(e: End, f: Frame, clock: nat)
    requires Sound(e, clock) && f.Request?
    ensures Receive(e, f, clock).1 <==> IsFault(e, f)
  {
    hide Sound, ExportsOk, ImportsOk, Outstanding, Lent, Exported, Take, RefsSound, Schedule, Total, Begin, Taken, Refuse;
    Basics(e, clock);
    if !f.op.Invoke? { GrantsAreOutstanding(e, clock, f.op.reference); }
    ArgsFault(e, f);
    hide TakeArgs;
  }

  /** Over every run, a frame is a fault exactly when it is one by what was sent and received. */
  lemma FaultsExactly(endpoint: nat, host: bool, inline: set<string>, events: seq<Event>, f: Frame)
    ensures var o := Live(Fresh(endpoint, host, inline), events);
      Receive(o.end, f, o.clock).1 <==> IsFault(o.end, f)
  {
    LiveSound(endpoint, host, inline, events);
    var o := Live(Fresh(endpoint, host, inline), events);
    Basics(o.end, o.clock);
    hide Live, Sound, ExportsOk, ImportsOk;
    match f
    case Hello(_, _, _) =>
    case Return(_, _) => ReplyFaults(o.end, f, o.clock);
    case Throw(_) => ReplyFaults(o.end, f, o.clock);
    case Release(_, _) => ReleaseFaults(o.end, f, o.clock);
    case Request(_, _, _, _) => RequestFaults(o.end, f, o.clock);
  }
}
