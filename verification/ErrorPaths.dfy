/** What the graph of a thrown value says, and what it is rebuilt as: every path through it, through
    errors made here and through errors received before. */
module ErrorPaths {
  import opened Options
  import opened ErrorGraph
  import opened ErrorTrip

  // ── The whole graph ─────────────────────────────────────────────

  /** The state a whole visit leaves. */
  function Final(h: Heap, thrown: Value): State
    requires HeapOk(h) && InRange(thrown, |h.objects|)
  {
    Visit(h, thrown, State([], map[])).st
  }

  /** Each node is right and of one object, and each object's parts have nodes. */
  ghost predicate Complete(h: Heap, st: State) {
    StateOk(h, st) && Placed(h, st) && Good(h, 0, st)
  }

  lemma FinalOk(h: Heap, thrown: Value)
    requires HeapOk(h) && InRange(thrown, |h.objects|) && EncodeError(h, thrown).Some?
    ensures var st, g := Final(h, thrown), EncodeError(h, thrown).value;
      Complete(h, st) && g.nodes == st.nodes && Known(thrown, st.seen) && g.root == Image(thrown, st.seen)
  {
    VisitGood(h, thrown, State([], map[]));
    hide Visit, Good, Placed;
  }

  lemma SeenIsOk(h: Heap, st: State, o: nat)
    requires Complete(h, st) && o in st.seen
    ensures o < |h.objects| && st.seen[o] < |st.nodes| && OneOk(h, st, o) && Fits(h, st, o)
  {
    hide OneOk;
  }

  /** Nothing seen leads to what cannot cross. */
  lemma {:induction false} SeenCrosses(h: Heap, st: State, v: Value, path: seq<nat>)
    requires Complete(h, st) && Known(v, st.seen)
    ensures Reach(h, v, path).Some? ==> Known(Reach(h, v, path).value, st.seen)
    decreases |path|
  {
    if path != [] && v.At? && v.id !in h.received {
      SeenIsOk(h, st, v.id);
      hide Complete;
      assert AllKnown(Parts(h.objects[v.id]), st.seen);
      if path[0] < |Parts(h.objects[v.id])| { SeenCrosses(h, st, Parts(h.objects[v.id])[path[0]], path[1..]); }
    }
  }

  lemma KnownCrosses(h: Heap, st: State, v: Value)
    requires Complete(h, st) && Known(v, st.seen)
    ensures Crosses(h, v)
  {
    forall path: seq<nat> ensures Reach(h, v, path) != Some(Function) { SeenCrosses(h, st, v, path); }
  }

  /** A visited object's data is in its node exactly when it can cross. */
  ghost predicate DataExact(h: Heap, o: nat, node: Thing)
    requires o < |h.objects|
  {
    DataOf(node) <==> DataOf(h.objects[o]) && Crosses(h, h.objects[o].data.value)
  }

  lemma DataCrosses(h: Heap, st: State, o: nat)
    requires Complete(h, st) && o in st.seen && o !in h.received
    ensures o < |h.objects| && st.seen[o] < |st.nodes|
    ensures NodeOf(h.objects[o], st.nodes[st.seen[o]], st.seen) && DataExact(h, o, st.nodes[st.seen[o]])
  {
    SeenIsOk(h, st, o);
    if DataOf(st.nodes[st.seen[o]]) { KnownCrosses(h, st, h.objects[o].data.value); }
    hide Crosses, Complete;
  }

  /** A thrown value has a graph exactly when no function or symbol is among its causes, aggregated
      errors, elements and fields; and of each error visited the data is kept exactly when none is
      in it. What was received crosses as it came. */
  lemma CrossesExactly(h: Heap, thrown: Value)
    requires HeapOk(h) && InRange(thrown, |h.objects|)
    ensures EncodeError(h, thrown).Some? <==> Crosses(h, thrown)
    ensures EncodeError(h, thrown).Some? ==>
      var st := Final(h, thrown);
      forall o <- st.seen :: o < |h.objects| &&
        (o !in h.received ==> st.seen[o] < |st.nodes| && DataExact(h, o, st.nodes[st.seen[o]]))
  {
    VisitGood(h, thrown, State([], map[]));
    var st := Final(h, thrown);
    if EncodeError(h, thrown).Some? {
      FinalOk(h, thrown);
      KnownCrosses(h, st, thrown);
      hide Final, EncodeError, HeapOk, Complete, DataExact, Crosses, NodeOf;
      forall o <- st.seen
        ensures o < |h.objects|
        ensures (o !in h.received ==> st.seen[o] < |st.nodes| && DataExact(h, o, st.nodes[st.seen[o]]))
      {
        SeenIsOk(h, st, o);
        if o !in h.received { DataCrosses(h, st, o); }
      }
    }
  }

  lemma NodesOk(h: Heap, st: State)
    requires Complete(h, st)
    ensures GraphOk(st.nodes)
  {
    hide Placed, Within, NoFunction, OneOk, HasObject;
    forall i | 0 <= i < |st.nodes|
      ensures !st.nodes[i].Blank? && Within(st.nodes[i], |st.nodes|) && NoFunction(st.nodes[i])
    {
      assert NodeOk(st, i);
    }
  }

  /** A graph refers only to nodes it has, and so is one that can be rebuilt: cycles and all. */
  lemma GraphInRange(h: Heap, thrown: Value)
    requires HeapOk(h) && InRange(thrown, |h.objects|) && EncodeError(h, thrown).Some?
    ensures var g := EncodeError(h, thrown).value;
      GraphOk(g.nodes) && InRange(g.root, |g.nodes|) && DecodeGraph(g).Some?
  {
    FinalOk(h, thrown);
    var st, g := Final(h, thrown), EncodeError(h, thrown).value;
    hide Final, EncodeError, HeapOk, GraphOk, Complete;
    NodesOk(h, st);
    if thrown.At? { SeenIsOk(h, st, thrown.id); }
  }

  /** Node `k` of a graph received, rebuilt: where it was thrown on stays out of sight. */
  function Resent(g: Received, offset: nat, k: nat): Thing
    requires k < |g.nodes|
  {
    Made(ShiftThing(g.nodes[k], offset))
  }

  lemma ResentIs(g: Received, offset: nat, k: nat)
    requires k < |g.nodes|
    ensures Made(SplicedNode(g, offset, k)) == Resent(g, offset, k)
  {
    hide ShiftThing;
  }

  /** What is rebuilt is isomorphic to what was thrown. Each object rebuilt is of one object
      visited: of one made here, with its own name, message, code and parts in order and its data
      when that can cross; or of an error received, and then it is its place in the graph that error
      came in. The root is the thrown value. */
  lemma GraphIsIsomorphic(h: Heap, thrown: Value)
    requires HeapOk(h) && InRange(thrown, |h.objects|) && EncodeError(h, thrown).Some?
    ensures DecodeGraph(EncodeError(h, thrown).value).Some?
    ensures var (objects, root) := DecodeGraph(EncodeError(h, thrown).value).value;
      var st := Final(h, thrown);
      && Known(thrown, st.seen) && root == Image(thrown, st.seen) && Placed(h, st) && |objects| == |st.nodes|
      && (forall i: nat :: i < |objects| ==> HasObject(h, st, i))
      && (forall o <- st.seen :: RebuiltOk(h, st.seen, o, objects))
  {
    GraphInRange(h, thrown);
    FinalOk(h, thrown);
    var st, g := Final(h, thrown), EncodeError(h, thrown).value;
    var objects := DecodeGraph(g).value.0;
    assert forall i :: 0 <= i < |objects| ==> objects[i] == Made(g.nodes[i]);
    hide Final, EncodeError, HeapOk, GraphOk, DecodeGraph, Made, RebuiltOk, OneOk, Known, Image, NodeOk;
    forall o <- st.seen ensures RebuiltOk(h, st.seen, o, objects) { Rebuilt(h, st, o, objects); }
  }

  /** An object visited is rebuilt as it is; an error received, with the graph it came in. */
  ghost predicate RebuiltOk(h: Heap, seen: map<nat, nat>, o: nat, objects: seq<Thing>)
    requires o in seen
  {
    if o in h.received then
      var g, offset := h.received[o], Begin(h, seen, o);
      0 <= offset && offset + |g.nodes| <= |objects|
      && forall k :: 0 <= k < |g.nodes| ==> objects[offset + k] == Resent(g, offset, k)
    else
      o < |h.objects| && seen[o] < |objects| && NodeOf(h.objects[o], objects[seen[o]], seen) &&
        DataExact(h, o, objects[seen[o]])
  }

  lemma Rebuilt(h: Heap, st: State, o: nat, objects: seq<Thing>)
    requires Complete(h, st) && o in st.seen
    requires |objects| == |st.nodes| && forall i :: 0 <= i < |objects| ==> objects[i] == Made(st.nodes[i])
    ensures RebuiltOk(h, st.seen, o, objects)
  {
    hide Complete, Made, SplicedNode, Resent, NodeOf, DataExact, Begin, Fits;
    SeenIsOk(h, st, o);
    if o in h.received {
      var g, offset := h.received[o], Begin(h, st.seen, o);
      forall k | 0 <= k < |g.nodes| ensures objects[offset + k] == Resent(g, offset, k) {
        SplicedThere(h, st, o, k);
        ResentIs(g, offset, k);
      }
    } else {
      DataCrosses(h, st, o);
      MadeIsNode(h, st, o);
    }
  }

  lemma MadeIsNode(h: Heap, st: State, o: nat)
    requires o in st.seen && o < |h.objects| && st.seen[o] < |st.nodes|
    requires NodeOf(h.objects[o], st.nodes[st.seen[o]], st.seen) && DataExact(h, o, st.nodes[st.seen[o]])
    ensures NodeOf(h.objects[o], Made(st.nodes[st.seen[o]]), st.seen) && DataExact(h, o, Made(st.nodes[st.seen[o]]))
  {
    hide Crosses, AllKnown;
  }

  // ── Paths ───────────────────────────────────────────────────────

  /** What a thing refers to, an error's data last. */
  function Edges(t: Thing): seq<Value> {
    Parts(t) + if DataOf(t) then [t.data.value] else []
  }

  /** What a value leads to among some things, by causes, aggregated errors, elements, fields and data. */
  function Follow(things: seq<Thing>, v: Value, path: seq<nat>): Option<Value>
    decreases |path|
  {
    if path == [] then Some(v)
    else if v.At? && v.id < |things| && path[0] < |Edges(things[v.id])|
    then Follow(things, Edges(things[v.id])[path[0]], path[1..])
    else None
  }

  /** What of an object can cross. */
  ghost function Sends(h: Heap, o: nat): seq<Value>
    requires o < |h.objects|
  {
    var t := h.objects[o];
    Parts(t) + if DataOf(t) && Crosses(h, t.data.value) then [t.data.value] else []
  }

  /** Where a path through what is sent ends: at a value that is no object, at an object made here,
      or at node `k` of the graph the error `o` was received in. */
  datatype Place = Leaf(v: Value) | Own(o: nat) | Inside(o: nat, k: nat)

  function PlaceOf(h: Heap, v: Value): Place {
    if !v.At? then Leaf(v) else if v.id in h.received then Inside(v.id, h.received[v.id].root) else Own(v.id)
  }

  function PlaceIn(o: nat, v: Value): Place {
    if v.At? then Inside(o, v.id) else Leaf(v)
  }

  ghost function LeadsFrom(h: Heap, p: Place, path: seq<nat>): Option<Place>
    decreases |path|
  {
    if path == [] then Some(p)
    else match p
      case Leaf(_) => None
      case Own(o) =>
        if o < |h.objects| && path[0] < |Sends(h, o)| then LeadsFrom(h, PlaceOf(h, Sends(h, o)[path[0]]), path[1..])
        else None
      case Inside(o, k) =>
        if o in h.received && k < |h.received[o].nodes| && path[0] < |Edges(h.received[o].nodes[k])|
        then LeadsFrom(h, PlaceIn(o, Edges(h.received[o].nodes[k])[path[0]]), path[1..])
        else None
  }

  ghost function LeadsTo(h: Heap, thrown: Value, path: seq<nat>): Option<Place> {
    LeadsFrom(h, PlaceOf(h, thrown), path)
  }

  /** The node of a place. */
  function NodeAt(h: Heap, seen: map<nat, nat>, p: Place): Value {
    match p
    case Leaf(v) => v
    case Own(o) => if o in seen then At(seen[o]) else Undefined
    case Inside(o, k) => if o in seen && Begin(h, seen, o) + k >= 0 then At(Begin(h, seen, o) + k) else Undefined
  }

  /** The place has a node. */
  predicate Stands(h: Heap, seen: map<nat, nat>, p: Place) {
    match p
    case Leaf(v) => !v.At? && !v.Function?
    case Own(o) => o in seen && o !in h.received
    case Inside(o, k) => o in seen && o in h.received && k < |h.received[o].nodes|
  }

  lemma KnownStands(h: Heap, st: State, v: Value)
    requires HeapOk(h) && Complete(h, st) && Known(v, st.seen)
    ensures Stands(h, st.seen, PlaceOf(h, v)) && NodeAt(h, st.seen, PlaceOf(h, v)) == Image(v, st.seen)
  {
    if v.At? {
      SeenIsOk(h, st, v.id);
      if v.id in h.received { assert ReceivedOk(h.received[v.id]); }
    }
    hide Complete, HeapOk, OneOk;
  }

  /** What an object's node refers to are the nodes of what can cross of it. */
  lemma OwnEdges(h: Heap, st: State, o: nat)
    requires HeapOk(h) && Complete(h, st) && o in st.seen && o !in h.received
    ensures o < |h.objects| && st.seen[o] < |st.nodes|
    ensures Edges(st.nodes[st.seen[o]]) == ImageAll(Sends(h, o), st.seen) && AllKnown(Sends(h, o), st.seen)
  {
    DataCrosses(h, st, o);
    hide Complete, HeapOk, Crosses;
    var t, node := h.objects[o], st.nodes[st.seen[o]];
    PartsBack(t, ImageAll(Parts(t), st.seen));
    assert Parts(node) == Parts(WithParts(t, ImageAll(Parts(t), st.seen)));
    hide Parts, WithParts;
    assert Edges(node) == ImageAll(Sends(h, o), st.seen);
  }

  /** What a spliced node refers to is what it did, in its own graph. */
  lemma InsideEdges(h: Heap, st: State, o: nat, k: nat)
    requires HeapOk(h) && Complete(h, st) && o in st.seen && o in h.received && k < |h.received[o].nodes|
    ensures var g, offset := h.received[o], Begin(h, st.seen, o);
      && 0 <= offset && offset + |g.nodes| <= |st.nodes|
      && Edges(st.nodes[offset + k]) == ShiftAll(Edges(g.nodes[k]), offset)
      && forall i :: 0 <= i < |Edges(g.nodes[k])| ==>
         InRange(Edges(g.nodes[k])[i], |g.nodes|) && !Edges(g.nodes[k])[i].Function?
  {
    assert ReceivedOk(h.received[o]);
    hide *;
    SplicedThere(h, st, o, k);
    SplicedEdges(h.received[o], Begin(h, st.seen, o), k);
  }

  lemma SplicedThere(h: Heap, st: State, o: nat, k: nat)
    requires Complete(h, st) && o in st.seen && o in h.received && k < |h.received[o].nodes|
    ensures var g, offset := h.received[o], Begin(h, st.seen, o);
      0 <= offset && offset + |g.nodes| <= |st.nodes| && st.nodes[offset + k] == SplicedNode(g, offset, k)
  {
    hide Complete, SplicedNode, Fits, Begin;
    SeenIsOk(h, st, o);
  }

  lemma SplicedEdges(g: Received, offset: nat, k: nat)
    requires ReceivedOk(g) && k < |g.nodes|
    ensures Edges(SplicedNode(g, offset, k)) == ShiftAll(Edges(g.nodes[k]), offset)
    ensures forall i ::
      0 <= i < |Edges(g.nodes[k])| ==> InRange(Edges(g.nodes[k])[i], |g.nodes|) && !Edges(g.nodes[k])[i].Function?
  {
    assert Within(g.nodes[k], |g.nodes|) && NoFunction(g.nodes[k]);
    hide Parts, SplicedNode, ReceivedOk, Shift;
    SplicedParts(g, offset, k);
    assert Edges(SplicedNode(g, offset, k)) == ShiftAll(Edges(g.nodes[k]), offset);
  }

  /** Every path leads, in the nodes, to the node of the place it leads to. */
  lemma {:induction false} PlacesMatch(h: Heap, st: State, p: Place, path: seq<nat>)
    requires HeapOk(h) && Complete(h, st) && Stands(h, st.seen, p)
    ensures var r := LeadsFrom(h, p, path);
      && (r.Some? ==> Stands(h, st.seen, r.value))
      && Follow(st.nodes, NodeAt(h, st.seen, p), path) == if r.Some? then Some(NodeAt(h, st.seen, r.value)) else None
    decreases |path|
  {
    hide Complete, HeapOk, Edges, Sends, Known, Image;
    if path != [] {
      match p
      case Leaf(_) =>
      case Own(o) =>
        OwnEdges(h, st, o);
        if path[0] < |Sends(h, o)| {
          KnownStands(h, st, Sends(h, o)[path[0]]);
          PlacesMatch(h, st, PlaceOf(h, Sends(h, o)[path[0]]), path[1..]);
        }
      case Inside(o, k) =>
        InsideEdges(h, st, o, k);
        var edges := Edges(h.received[o].nodes[k]);
        if path[0] < |edges| { PlacesMatch(h, st, PlaceIn(o, edges[path[0]]), path[1..]); }
    }
  }

  /** No two places have one node. */
  lemma NodesApart(h: Heap, st: State, p: Place, q: Place)
    requires Complete(h, st) && Stands(h, st.seen, p) && Stands(h, st.seen, q)
    ensures NodeAt(h, st.seen, p) == NodeAt(h, st.seen, q) <==> p == q
  {
    if !p.Leaf? { SeenIsOk(h, st, p.o); }
    if !q.Leaf? { SeenIsOk(h, st, q.o); }
    assert Placed(h, st);
    hide Complete, OneOk;
    assert !p.Leaf? && !q.Leaf? && p.o != q.o ==> Apart(h, st.seen, p.o, q.o);
    hide Placed;
  }

  lemma MadeEdges(t: Thing)
    ensures Edges(Made(t)) == Edges(t)
  {}

  /** Paths through what is rebuilt are paths through the graph. */
  lemma {:induction false} MadeFollows(nodes: seq<Thing>, objects: seq<Thing>, v: Value, path: seq<nat>)
    requires |objects| == |nodes| && forall i :: 0 <= i < |nodes| ==> objects[i] == Made(nodes[i])
    ensures Follow(objects, v, path) == Follow(nodes, v, path)
    decreases |path|
  {
    hide Made, Edges;
    if path != [] && v.At? && v.id < |nodes| {
      MadeEdges(nodes[v.id]);
      if path[0] < |Edges(nodes[v.id])| { MadeFollows(nodes, objects, Edges(nodes[v.id])[path[0]], path[1..]); }
    }
  }

  /** What a path from the root of what is rebuilt leads to. */
  function Arrives(h: Heap, thrown: Value, path: seq<nat>): Option<Value>
    requires HeapOk(h) && InRange(thrown, |h.objects|) && EncodeError(h, thrown).Some?
  {
    var made := DecodeGraph(EncodeError(h, thrown).value);
    if made.None? then None else Follow(made.value.0, made.value.1, path)
  }

  lemma ArrivesAt(h: Heap, thrown: Value, path: seq<nat>)
    requires HeapOk(h) && InRange(thrown, |h.objects|) && EncodeError(h, thrown).Some?
    ensures Complete(h, Final(h, thrown))
    ensures var r, seen := LeadsTo(h, thrown, path), Final(h, thrown).seen;
      && (r.Some? ==> Stands(h, seen, r.value))
      && Arrives(h, thrown, path) == if r.Some? then Some(NodeAt(h, seen, r.value)) else None
  {
    GraphInRange(h, thrown);
    FinalOk(h, thrown);
    var st, g := Final(h, thrown), EncodeError(h, thrown).value;
    var (objects, root) := DecodeGraph(g).value;
    assert forall i :: 0 <= i < |objects| ==> objects[i] == Made(g.nodes[i]);
    hide Final, EncodeError, HeapOk, GraphOk, DecodeGraph, Complete, Made, Follow, LeadsFrom, PlaceOf, NodeAt, Stands;
    MadeFollows(g.nodes, objects, root, path);
    KnownStands(h, st, thrown);
    PlacesMatch(h, st, PlaceOf(h, thrown), path);
  }

  /** A thrown value crosses path by path, whatever was received before and whatever became of it
      since: an error made here as it is, one received as it came. Two paths meet in what is rebuilt
      exactly when they lead to one place of what is sent. */
  lemma PathsArePreserved(h: Heap, thrown: Value, path: seq<nat>, other: seq<nat>)
    requires HeapOk(h) && InRange(thrown, |h.objects|) && EncodeError(h, thrown).Some?
    ensures Arrives(h, thrown, path).Some? <==> LeadsTo(h, thrown, path).Some?
    ensures Arrives(h, thrown, path) == Arrives(h, thrown, other) <==>
      LeadsTo(h, thrown, path) == LeadsTo(h, thrown, other)
    ensures var r := LeadsTo(h, thrown, path); r.Some? && r.value.Leaf? ==> Arrives(h, thrown, path) == Some(r.value.v)
  {
    var st, p, q := Final(h, thrown), LeadsTo(h, thrown, path), LeadsTo(h, thrown, other);
    hide Final, EncodeError, HeapOk, Complete, LeadsTo, Arrives, Stands;
    ArrivesAt(h, thrown, path);
    ArrivesAt(h, thrown, other);
    if p.Some? && q.Some? { NodesApart(h, st, p.value, q.value); }
  }

  /** From any node of a graph spliced in, wherever it lies in the finished graph, every path leads
      to where it led in the graph as it was received. */
  lemma SpliceKeepsPaths(h: Heap, thrown: Value, o: nat, k: nat, path: seq<nat>)
    requires HeapOk(h) && InRange(thrown, |h.objects|) && EncodeError(h, thrown).Some?
    requires o in Final(h, thrown).seen && o in h.received && k < |h.received[o].nodes|
    ensures var offset, nodes := Begin(h, Final(h, thrown).seen, o), EncodeError(h, thrown).value.nodes;
      var r := Follow(h.received[o].nodes, At(k), path);
      && 0 <= offset && offset + |h.received[o].nodes| <= |nodes|
      && Follow(nodes, At(offset + k), path) == if r.Some? then Some(Shift(r.value, offset)) else None
  {
    FinalOk(h, thrown);
    var st := Final(h, thrown);
    hide Final, EncodeError, HeapOk, Complete;
    SplicedThere(h, st, o, k);
    hide SplicedNode, Begin, Follow;
    SplicedFollows(h, st, o, At(k), path);
  }

  lemma {:induction false} SplicedFollows(h: Heap, st: State, o: nat, v: Value, path: seq<nat>)
    requires HeapOk(h) && Complete(h, st) && o in st.seen && o in h.received && InRange(v, |h.received[o].nodes|)
    requires 0 <= Begin(h, st.seen, o)
    ensures var offset, r := Begin(h, st.seen, o), Follow(h.received[o].nodes, v, path);
      Follow(st.nodes, Shift(v, offset), path) == if r.Some? then Some(Shift(r.value, offset)) else None
    decreases |path|
  {
    hide Complete, HeapOk, Edges, Begin;
    if path != [] && v.At? {
      InsideEdges(h, st, o, v.id);
      var edges := Edges(h.received[o].nodes[v.id]);
      if path[0] < |edges| { SplicedFollows(h, st, o, edges[path[0]], path[1..]); }
    }
  }
}
