/** The frames two sessions exchange, and how much of each thing a log of frames carries. */
module Wire {
  import opened Options

  /** The largest integer a JavaScript number holds exactly. */
  const MAX_SAFE: nat := 0x1F_FFFF_FFFF_FFFF
  const PROTOCOL: nat := 4

  /** What a value that crosses by reference is. */
  datatype Kind = Function | Future | Object | Plugin

  /** The identity of a call: the endpoint that made it, and its number there. */
  datatype CallId = CallId(endpoint: nat, number: nat)
  type Path = seq<CallId>

  /** A reference on the wire. `home`: it goes back to the side that owns the value. */
  datatype Reference = Reference(id: nat, kind: Kind, home: bool, origin: Path)

  /** A call's arguments or its result: the references in it, in the order they are encoded;
      `sound` says that the far end takes every other value in it. */
  datatype Payload = Payload(refs: seq<Reference>, sound: bool)

  datatype Operation =
    | Invoke(target: string, name: string)
    | Call(reference: nat, member: Option<string>)
    | Get(reference: nat)
    | Await(reference: nat)

  datatype Frame =
    | Hello(version: nat, endpoint: nat, plugins: bool)
    | Request(id: CallId, path: Path, op: Operation, args: Payload)
    | Return(id: CallId, value: Payload)
    | Throw(id: CallId)
    | Release(reference: nat, count: nat)

  /** The references a frame carries. A property read and an await have no arguments. */
  function Carried(f: Frame): seq<Reference> {
    match f
    case Request(_, _, op, args) => if op.Await? || op.Get? then [] else args.refs
    case Return(_, value) => value.refs
    case _ => []
  }

  /** The kind the target of an operation must have. */
  function TargetKind(op: Operation): Kind {
    match op
    case Await(_) => Future
    case Get(_) => Object
    case Call(_, member) => if member.Some? then Object else Function
    case Invoke(_, _) => Object
  }

  /** How many of `refs` grant the reference `id`. */
  function Grants(refs: seq<Reference>, id: nat): nat {
    if refs == [] then 0
    else Grants(refs[..|refs| - 1], id) + (var r := refs[|refs| - 1]; if !r.home && r.id == id then 1 else 0)
  }

  // ── Totals over logs ────────────────────────────────────────────

  /** What is counted in a log of frames. */
  datatype Gauge =
    | Granted(id: nat)       // grants of a reference
    | Released(id: nat)      // grants of a reference given back
    | Asked(number: nat)     // requests of a number
    | Awaits(number: nat)    // of these, the awaits
    | Answered(number: nat)  // replies to a number

  function Weigh(g: Gauge, f: Frame): nat {
    match g
    case Granted(id) => Grants(Carried(f), id)
    case Released(id) => if f.Release? && f.reference == id then f.count else 0
    case Asked(n) => if f.Request? && f.id.number == n then 1 else 0
    case Awaits(n) => if f.Request? && f.id.number == n && f.op.Await? then 1 else 0
    case Answered(n) => if (f.Return? || f.Throw?) && f.id.number == n then 1 else 0
  }

  function Total(g: Gauge, log: seq<Frame>): nat {
    if log == [] then 0 else Total(g, log[..|log| - 1]) + Weigh(g, log[|log| - 1])
  }

  lemma TotalOne(g: Gauge, log: seq<Frame>, f: Frame)
    ensures Total(g, log + [f]) == Total(g, log) + Weigh(g, f)
  {
    assert (log + [f])[..|log|] == log;
  }

  lemma {:induction false} TotalSplit(g: Gauge, xs: seq<Frame>, ys: seq<Frame>)
    ensures Total(g, xs + ys) == Total(g, xs) + Total(g, ys)
    decreases |ys|
  {
    if ys == [] {
      assert xs + ys == xs;
    } else {
      var front, last := ys[..|ys| - 1], ys[|ys| - 1];
      TotalSplit(g, xs, front);
      assert xs + ys == (xs + front) + [last] && ys == front + [last];
      hide Total, Weigh;
      TotalOne(g, xs + front, last);
      TotalOne(g, front, last);
    }
  }

  /** A log carries at least what a prefix of it does. */
  lemma TotalPrefix(g: Gauge, xs: seq<Frame>, ys: seq<Frame>)
    requires xs <= ys
    ensures Total(g, xs) <= Total(g, ys)
    ensures Total(g, ys) == Total(g, xs) + Total(g, ys[|xs|..])
  {
    assert ys == xs + ys[|xs|..];
    TotalSplit(g, xs, ys[|xs|..]);
  }

  /** The references a log grants, each once. */
  function Offered(log: seq<Frame>): (s: set<Reference>) {
    if log == [] then {}
    else Offered(log[..|log| - 1]) + (set r <- Carried(log[|log| - 1]) | !r.home :: r)
  }

  lemma OfferedOne(log: seq<Frame>, f: Frame)
    ensures Offered(log + [f]) == Offered(log) + (set r <- Carried(f) | !r.home :: r)
  {
    assert (log + [f])[..|log|] == log;
  }

  lemma {:induction false} OfferedPrefix(xs: seq<Frame>, ys: seq<Frame>)
    requires xs <= ys
    ensures Offered(xs) <= Offered(ys)
    decreases |ys|
  {
    if |xs| < |ys| {
      OfferedPrefix(xs, ys[..|ys| - 1]);
    } else {
      assert xs == ys;
    }
  }

  /** The number of the last request in a log, 0 when there is none. */
  function LastAsked(log: seq<Frame>): nat {
    if log == [] then 0
    else if log[|log| - 1].Request? then log[|log| - 1].id.number
    else LastAsked(log[..|log| - 1])
  }

  lemma LastAskedOne(log: seq<Frame>, f: Frame)
    ensures LastAsked(log + [f]) == if f.Request? then f.id.number else LastAsked(log)
  {
    assert (log + [f])[..|log|] == log;
  }
}
