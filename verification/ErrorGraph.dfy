/** Errors as graphs of nodes: how a thrown value, with causes, sharing and cycles, is flattened,
    how a graph received before is spliced in, and how one is rebuilt. */
module ErrorGraph {
  import opened Options

  /** A value in an object or a node. `At`: an object, or the node that is one; `Function`: a
      function or a symbol, which does not cross. */
  datatype Value = Undefined | Data(text: string) | Big(text: string) | Odd(text: string) | Function | At(id: nat)

  /** An object, or its node. `rethrown`: where an error received was thrown on. `Blank`: a node
      whose object is being visited. */
  datatype Thing =
    | Error(name: string, message: string, cause: Option<Value>, errors: Option<seq<Value>>,
            code: Option<string>, data: Option<Value>, rethrown: seq<string>)
    | List(values: seq<Value>)
    | Fields(keys: seq<string>, values: seq<Value>)
    | Blank

  datatype Graph = Graph(root: Value, nodes: seq<Thing>)

  /** An error received: the graph it came in, its node there, and the frames it is thrown on at. */
  datatype Received = Received(nodes: seq<Thing>, root: nat, at: Option<string>)

  datatype Heap = Heap(objects: seq<Thing>, received: map<nat, Received>)

  const MOST_RETHROWN: nat := 8

  // ── References ──────────────────────────────────────────────────

  /** What a thing refers to, in the order it is visited; an error's data apart. */
  function Parts(t: Thing): seq<Value> {
    match t
    case Error(_, _, cause, errors, _, _, _) =>
      (if cause.Some? then [cause.value] else []) + (if errors.Some? then errors.value else [])
    case List(values) => values
    case Fields(_, values) => values
    case Blank => []
  }

  /** A thing with other parts in their places. */
  function WithParts(t: Thing, parts: seq<Value>): Thing
    requires |parts| == |Parts(t)|
  {
    match t
    case Error(_, _, cause, errors, _, _, _) =>
      var first := if cause.Some? then 1 else 0;
      t.(cause := if cause.Some? then Some(parts[0]) else None,
        errors := if errors.Some? then Some(parts[first..]) else None)
    case List(_) => List(parts)
    case Fields(keys, _) => Fields(keys, parts)
    case Blank => Blank
  }

  predicate InRange(v: Value, n: nat) {
    v.At? ==> v.id < n
  }

  predicate DataOf(t: Thing) {
    t.Error? && t.data.Some?
  }

  /** Every reference of a thing is to one of `n`. */
  predicate Within(t: Thing, n: nat) {
    && (forall i :: 0 <= i < |Parts(t)| ==> InRange(Parts(t)[i], n))
    && (DataOf(t) ==> InRange(t.data.value, n))
  }

  /** Things that refer to each other alone, none of them still being visited. */
  predicate Whole(things: seq<Thing>) {
    forall i :: 0 <= i < |things| ==> !things[i].Blank? && Within(things[i], |things|)
  }

  /** Nothing in a node is a function: no graph has a value that stands for one. */
  predicate NoFunction(t: Thing) {
    && (forall i :: 0 <= i < |Parts(t)| ==> !Parts(t)[i].Function?)
    && (DataOf(t) ==> !t.data.value.Function?)
  }

  predicate GraphOk(nodes: seq<Thing>) {
    Whole(nodes) && forall i :: 0 <= i < |nodes| ==> NoFunction(nodes[i])
  }

  predicate ReceivedOk(r: Received) {
    GraphOk(r.nodes) && r.root < |r.nodes| && r.nodes[r.root].Error?
  }

  predicate HeapOk(h: Heap) {
    && Whole(h.objects)
    && (forall o <- h.received :: o < |h.objects| && ReceivedOk(h.received[o]))
  }

  // ── Splicing ────────────────────────────────────────────────────

  function Shift(v: Value, offset: nat): Value {
    if v.At? then At(v.id + offset) else v
  }

  function ShiftAll(vs: seq<Value>, offset: nat): (shifted: seq<Value>)
    ensures |shifted| == |vs| && forall i :: 0 <= i < |vs| ==> shifted[i] == Shift(vs[i], offset)
  {
    seq(|vs|, i requires 0 <= i < |vs| => Shift(vs[i], offset))
  }

  function ShiftThing(t: Thing, offset: nat): Thing {
    var shifted := WithParts(t, ShiftAll(Parts(t), offset));
    if DataOf(t) && shifted.Error? then shifted.(data := Some(Shift(t.data.value, offset))) else shifted
  }

  function ShiftNodes(nodes: seq<Thing>, offset: nat): (shifted: seq<Thing>)
    ensures |shifted| == |nodes| && forall i :: 0 <= i < |nodes| ==> shifted[i] == ShiftThing(nodes[i], offset)
  {
    seq(|nodes|, i requires 0 <= i < |nodes| => ShiftThing(nodes[i], offset))
  }

  /** One more place an error was thrown on at, up to eight, on a copy of its node. */
  function Rethrow(t: Thing, at: Option<string>): Thing {
    if t.Error? && at.Some? && |t.rethrown| < MOST_RETHROWN then t.(rethrown := t.rethrown + [at.value]) else t
  }

  // ── Visiting ────────────────────────────────────────────────────

  /** The nodes so far, and the node of each object visited. */
  datatype State = State(nodes: seq<Thing>, seen: map<nat, nat>)

  /** What a visit leaves, and the value it gives; none when it threw. */
  datatype Visited = Visited(st: State, result: Option<Value>)
  datatype VisitedAll = VisitedAll(st: State, results: Option<seq<Value>>)

  predicate StateOk(h: Heap, st: State) {
    forall o <- st.seen :: o < |h.objects| && st.seen[o] < |st.nodes|
  }

  /** The objects not visited yet: they are fewer with each one visited. */
  ghost function Unseen(h: Heap, st: State): set<nat> {
    set o | 0 <= o < |h.objects| && o !in st.seen
  }

  /** What was there is there; what was seen since has later nodes. */
  ghost predicate Grows(st: State, later: State) {
    && st.nodes <= later.nodes
    && (forall o <- st.seen :: o in later.seen && later.seen[o] == st.seen[o])
    && (forall o <- later.seen :: o in st.seen || later.seen[o] >= |st.nodes|)
  }

  function Splice(h: Heap, o: nat, st: State): Visited
    requires o in h.received
  {
    var r, offset := h.received[o], |st.nodes|;
    var spliced := ShiftNodes(r.nodes, offset);
    var id := offset + r.root;
    Visited(State(st.nodes +
      (if r.root < |spliced| then spliced[r.root := Rethrow(spliced[r.root], r.at)] else spliced), st.seen[o := id]),
            Some(At(id)))
  }

  lemma FewerUnseen(h: Heap, st: State, later: State)
    requires StateOk(h, later) && Grows(st, later)
    ensures |Unseen(h, later)| <= |Unseen(h, st)|
    ensures forall o: nat ::
      o < |h.objects| && o !in st.seen && o in later.seen ==> |Unseen(h, later)| < |Unseen(h, st)|
  {
    Fewer(Unseen(h, later), Unseen(h, st));
    forall o: nat | o < |h.objects| && o !in st.seen && o in later.seen ensures |Unseen(h, later)| < |Unseen(h, st)| {
      assert o in Unseen(h, st) && o !in Unseen(h, later);
      Fewer(Unseen(h, later), Unseen(h, st) - {o});
    }
  }

  lemma {:induction false} Fewer(a: set<nat>, b: set<nat>)
    requires a <= b
    ensures |a| <= |b|
    decreases |a|
  {
    if a != {} {
      var x :| x in a;
      Fewer(a - {x}, b - {x});
    }
  }

  /** The node of an object whose parts and data were visited. */
  function Filled(st: State, id: nat, t: Thing, parts: seq<Value>, data: Option<Value>): (filled: State)
    requires |parts| == |Parts(t)| && id < |st.nodes|
    ensures filled.seen == st.seen && |filled.nodes| == |st.nodes|
    ensures forall i :: 0 <= i < |st.nodes| && i != id ==> filled.nodes[i] == st.nodes[i]
  {
    var node := WithParts(t, parts);
    st.(nodes := st.nodes[id := if node.Error? then node.(data := data, rethrown := []) else node])
  }

  function Visit(h: Heap, v: Value, st: State): (r: Visited)
    requires HeapOk(h) && StateOk(h, st) && InRange(v, |h.objects|)
    ensures StateOk(h, r.st) && Grows(st, r.st)
    decreases |Unseen(h, st)|, 0, 0
  {
    if v.Function? then Visited(st, None)
    else if !v.At? then Visited(st, Some(v))
    else if v.id in st.seen then Visited(st, Some(At(st.seen[v.id])))
    else if v.id in h.received then Splice(h, v.id, st)
    else
      var id, t := |st.nodes|, h.objects[v.id];
      var entered := State(st.nodes + [Blank], st.seen[v.id := id]);
      FewerUnseen(h, st, entered);
      var parts := VisitAll(h, Parts(t), entered);
      if parts.results.None? then Visited(parts.st, None)
      else
        FewerUnseen(h, entered, parts.st);
        var data := if DataOf(t) then Attempt(h, t.data.value, parts.st) else Visited(parts.st, None);
        Visited(Filled(data.st, id, t, parts.results.value, data.result), Some(At(id)))
  }

  function VisitAll(h: Heap, vs: seq<Value>, st: State): (r: VisitedAll)
    requires HeapOk(h) && StateOk(h, st) && forall i :: 0 <= i < |vs| ==> InRange(vs[i], |h.objects|)
    ensures StateOk(h, r.st) && Grows(st, r.st)
    ensures r.results.Some? ==> |r.results.value| == |vs|
    decreases |Unseen(h, st)|, 2, |vs|
  {
    if vs == [] then VisitedAll(st, Some([]))
    else
      var front := VisitAll(h, vs[..|vs| - 1], st);
      if front.results.None? then front
      else
        FewerUnseen(h, st, front.st);
        var last := Visit(h, vs[|vs| - 1], front.st);
        VisitedAll(last.st, if last.result.None? then None else Some(front.results.value + [last.result.value]))
  }

  /** Visit a value, or leave nothing of the visit when it throws. */
  function Attempt(h: Heap, v: Value, st: State): (r: Visited)
    requires HeapOk(h) && StateOk(h, st) && InRange(v, |h.objects|)
    ensures StateOk(h, r.st) && Grows(st, r.st)
    decreases |Unseen(h, st)|, 1, 0
  {
    var mark, tried := |st.nodes|, Visit(h, v, st);
    RestoredIs(h, st, tried.st);
    if tried.result.Some? then tried
    else Visited(Restored(tried.st, mark), None)
  }

  /** The nodes cut at a mark, and the objects seen since forgotten. */
  function Restored(st: State, mark: nat): State {
    State(if mark <= |st.nodes| then st.nodes[..mark] else st.nodes, map o | o in st.seen &&
      st.seen[o] < mark :: st.seen[o])
  }

  /** What is restored is what was there, whatever was visited since. */
  lemma RestoredIs(h: Heap, st: State, later: State)
    requires StateOk(h, st) && Grows(st, later)
    ensures Restored(later, |st.nodes|) == st
  {
    assert Restored(later, |st.nodes|).seen == st.seen;
  }

  /** The graph of a thrown value; none when it holds what cannot cross. */
  function EncodeError(h: Heap, thrown: Value): Option<Graph>
    requires HeapOk(h) && InRange(thrown, |h.objects|)
  {
    var visited := Visit(h, thrown, State([], map[]));
    if visited.result.None? then None else Some(Graph(visited.result.value, visited.st.nodes))
  }

  // ── Rebuilding ──────────────────────────────────────────────────

  /** The objects a graph describes and the value at its root; none when a reference is out of it,
      or something in it is no value a graph has. */
  function DecodeGraph(g: Graph): Option<(seq<Thing>, Value)> {
    if !InRange(g.root, |g.nodes|) || g.root.Function? || !GraphOk(g.nodes) then None
    else Some((seq(|g.nodes|, i requires 0 <= i < |g.nodes| => Made(g.nodes[i])), g.root))
  }

  /** The object of a node: where it was thrown on stays in the graph kept beside it. */
  function Made(t: Thing): Thing {
    if t.Error? then t.(rethrown := []) else t
  }
}
