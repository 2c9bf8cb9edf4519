/** What the graph of a thrown value is made of: the nodes of the objects visited, and the graphs
    of errors received, each in its place. */
module ErrorTrip {
  import opened Options
  import opened ErrorGraph

  // ── What can cross ──────────────────────────────────────────────

  /** What a value leads to by parts alone; an error received is sent as it came, whatever is in it. */
  function Reach(h: Heap, v: Value, path: seq<nat>): Option<Value>
    decreases |path|
  {
    if path == [] then Some(v)
    else if v.At? && v.id < |h.objects| && v.id !in h.received && path[0] < |Parts(h.objects[v.id])|
    then Reach(h, Parts(h.objects[v.id])[path[0]], path[1..])
    else None
  }

  /** No path leads to a function or a symbol. */
  ghost predicate Crosses(h: Heap, v: Value) {
    forall path: seq<nat> :: Reach(h, v, path) != Some(Function)
  }

  lemma FunctionStops(h: Heap)
    ensures !Crosses(h, Function)
  {
    assert Reach(h, Function, []) == Some(Function);
  }

  lemma ReachPart(h: Heap, o: nat, i: nat, path: seq<nat>)
    requires o < |h.objects| && o !in h.received && i < |Parts(h.objects[o])|
    ensures Reach(h, At(o), [i] + path) == Reach(h, Parts(h.objects[o])[i], path)
  {
    assert ([i] + path)[1..] == path;
  }

  /** What an object is made of crosses when it does. */
  lemma PartsCross(h: Heap, o: nat)
    requires o < |h.objects| && o !in h.received && Crosses(h, At(o))
    ensures forall i :: 0 <= i < |Parts(h.objects[o])| ==> Crosses(h, Parts(h.objects[o])[i])
  {
    forall i, path: seq<nat> | 0 <= i < |Parts(h.objects[o])|
      ensures Reach(h, Parts(h.objects[o])[i], path) != Some(Function)
    {
      ReachPart(h, o, i, path);
      assert Reach(h, At(o), [i] + path) != Some(Function);
    }
  }

  // ── A node is its object's ──────────────────────────────────────

  /** `v` crosses, and if it is an object it has a node. */
  predicate Known(v: Value, seen: map<nat, nat>) {
    !v.Function? && (v.At? ==> v.id in seen)
  }

  function Image(v: Value, seen: map<nat, nat>): Value {
    if v.At? && v.id in seen then At(seen[v.id]) else v
  }

  function ImageAll(vs: seq<Value>, seen: map<nat, nat>): (images: seq<Value>)
    ensures |images| == |vs| && forall i :: 0 <= i < |vs| ==> images[i] == Image(vs[i], seen)
  {
    seq(|vs|, i requires 0 <= i < |vs| => Image(vs[i], seen))
  }

  predicate AllKnown(vs: seq<Value>, seen: map<nat, nat>) {
    forall i :: 0 <= i < |vs| ==> Known(vs[i], seen)
  }

  /** `node` says of each part of `t` which node it is, in its order: causes, aggregated errors,
      elements and fields all, and the code; the data, if it is there. */
  predicate NodeOf(t: Thing, node: Thing, seen: map<nat, nat>) {
    && AllKnown(Parts(t), seen)
    && var whole := WithParts(t, ImageAll(Parts(t), seen));
       if t.Error? then node.Error? && node == whole.(data := node.data, rethrown := []) && DataKept(t, node, seen)
       else node == whole
  }

  predicate DataKept(t: Thing, node: Thing, seen: map<nat, nat>)
    requires t.Error? && node.Error?
  {
    node.data.Some? ==> t.data.Some? && Known(t.data.value, seen) && node.data == Some(Image(t.data.value, seen))
  }

  lemma NodeOfLater(t: Thing, node: Thing, seen: map<nat, nat>, later: map<nat, nat>)
    requires NodeOf(t, node, seen) && forall o <- seen :: o in later && later[o] == seen[o]
    ensures NodeOf(t, node, later)
  {
    assert ImageAll(Parts(t), later) == ImageAll(Parts(t), seen);
  }

  // ── Every object has nodes of its own ───────────────────────────

  /** Where the nodes of an object begin, and how many there are: one, or a whole graph received. */
  function Begin(h: Heap, seen: map<nat, nat>, o: nat): int
    requires o in seen
  {
    seen[o] - if o in h.received then h.received[o].root else 0
  }

  function Size(h: Heap, o: nat): nat {
    if o in h.received then |h.received[o].nodes| else 1
  }

  predicate Apart(h: Heap, seen: map<nat, nat>, o: nat, p: nat)
    requires o in seen && p in seen
  {
    Begin(h, seen, o) + Size(h, o) <= Begin(h, seen, p) || Begin(h, seen, p) + Size(h, p) <= Begin(h, seen, o)
  }

  ghost predicate Fits(h: Heap, st: State, o: nat)
    requires o in st.seen
  {
    o < |h.objects| && 0 <= Begin(h, st.seen, o) <= st.seen[o] < Begin(h, st.seen, o) + Size(h, o) <= |st.nodes|
  }

  /** No node is of two objects. */
  ghost predicate Placed(h: Heap, st: State) {
    && (forall o <- st.seen :: Fits(h, st, o))
    && (forall o, p :: o in st.seen && p in st.seen && o != p ==> Apart(h, st.seen, o, p))
  }

  /** Node `i` is of object `o`. */
  ghost predicate Holds(h: Heap, st: State, o: nat, i: nat) {
    o in st.seen && Begin(h, st.seen, o) <= i < Begin(h, st.seen, o) + Size(h, o)
  }

  ghost predicate HasObject(h: Heap, st: State, i: nat) {
    exists o: nat :: Holds(h, st, o, i)
  }

  // ── What a visit keeps ──────────────────────────────────────────

  /** A new node is whole, with references to nodes there are. */
  ghost predicate NodeOk(st: State, i: nat)
    requires i < |st.nodes|
  {
    !st.nodes[i].Blank? && Within(st.nodes[i], |st.nodes|) && NoFunction(st.nodes[i])
  }

  /** A new node of an object not received is that object's, with its data when that can cross. */
  ghost predicate ObjectOk(h: Heap, st: State, o: nat)
    requires o in st.seen && o < |h.objects| && st.seen[o] < |st.nodes|
  {
    && NodeOf(h.objects[o], st.nodes[st.seen[o]], st.seen)
    && (DataOf(h.objects[o]) && Crosses(h, h.objects[o].data.value) ==> DataOf(st.nodes[st.seen[o]]))
  }

  /** Node `k` of a graph received, spliced in at `offset`. */
  function SplicedNode(g: Received, offset: nat, k: nat): Thing
    requires k < |g.nodes|
  {
    if k == g.root then Rethrow(ShiftThing(g.nodes[k], offset), g.at) else ShiftThing(g.nodes[k], offset)
  }

  /** The graph of an error received is there, shifted, where the error's nodes begin. */
  ghost predicate SplicedOk(h: Heap, st: State, o: nat)
    requires o in st.seen && o in h.received
  {
    var g, offset := h.received[o], Begin(h, st.seen, o);
    && 0 <= offset && offset + |g.nodes| <= |st.nodes|
    && forall k :: 0 <= k < |g.nodes| ==> st.nodes[offset + k] == SplicedNode(g, offset, k)
  }

  ghost predicate OneOk(h: Heap, st: State, o: nat)
    requires o in st.seen && o < |h.objects| && st.seen[o] < |st.nodes|
  {
    if o in h.received then SplicedOk(h, st, o) else ObjectOk(h, st, o)
  }

  /** What was added to `st` to make `later` is right: `from` on. */
  ghost predicate Good(h: Heap, from: nat, later: State)
    requires StateOk(h, later)
  {
    && (forall i :: from <= i < |later.nodes| ==> NodeOk(later, i))
    && (forall o <- later.seen :: later.seen[o] >= from ==> OneOk(h, later, o))
    && (forall i: nat :: from <= i < |later.nodes| ==> HasObject(h, later, i))
  }

  lemma NodeOkLater(st: State, later: State, i: nat)
    requires i < |st.nodes| && st.nodes <= later.nodes && NodeOk(st, i)
    ensures NodeOk(later, i)
  {}

  lemma OneOkLater(h: Heap, st: State, later: State, o: nat)
    requires o in st.seen && o < |h.objects| && st.seen[o] < |st.nodes| && Grows(st, later) && OneOk(h, st, o)
    ensures OneOk(h, later, o)
  {
    hide SplicedNode, Crosses;
    if o !in h.received { NodeOfLater(h.objects[o], st.nodes[st.seen[o]], st.seen, later.seen); }
    hide NodeOf;
  }

  lemma HasObjectLater(h: Heap, st: State, later: State, i: nat)
    requires HasObject(h, st, i) && forall o <- st.seen :: o in later.seen && later.seen[o] == st.seen[o]
    ensures HasObject(h, later, i)
  {
    var o: nat :| Holds(h, st, o, i);
    assert Holds(h, later, o, i);
  }

  lemma GoodTrans(h: Heap, from: nat, mid: State, later: State)
    requires StateOk(h, mid) && StateOk(h, later) && from <= |mid.nodes| && Grows(mid, later)
    requires Good(h, from, mid) && Good(h, |mid.nodes|, later)
    ensures Good(h, from, later)
  {
    hide NodeOk, OneOk, HasObject;
    forall i | from <= i < |later.nodes| ensures NodeOk(later, i) {
      if i < |mid.nodes| { NodeOkLater(mid, later, i); }
    }
    forall o <- later.seen | later.seen[o] >= from ensures OneOk(h, later, o) {
      if o in mid.seen { OneOkLater(h, mid, later, o); }
    }
    forall i: nat | from <= i < |later.nodes| ensures HasObject(h, later, i) {
      if i < |mid.nodes| { HasObjectLater(h, mid, later, i); }
    }
  }

  // ── A graph spliced in ──────────────────────────────────────────

  /** A thing's parts are those it was given. */
  lemma PartsBack(t: Thing, parts: seq<Value>)
    requires |parts| == |Parts(t)|
    ensures Parts(WithParts(t, parts)) == parts
  {}

  lemma ShiftParts(t: Thing, offset: nat)
    ensures Parts(ShiftThing(t, offset)) == ShiftAll(Parts(t), offset) && (ShiftThing(t, offset).Blank? <==> t.Blank?)
    ensures DataOf(ShiftThing(t, offset)) <==> DataOf(t)
    ensures DataOf(t) ==> ShiftThing(t, offset).data == Some(Shift(t.data.value, offset))
  {
    PartsBack(t, ShiftAll(Parts(t), offset));
  }

  lemma RethrowParts(t: Thing, at: Option<string>)
    ensures Parts(Rethrow(t, at)) == Parts(t) && (Rethrow(t, at).Blank? <==> t.Blank?)
    ensures DataOf(Rethrow(t, at)) <==> DataOf(t)
    ensures DataOf(t) ==> Rethrow(t, at).data == t.data
  {}

  /** What a spliced node refers to. */
  lemma SplicedParts(g: Received, offset: nat, k: nat)
    requires k < |g.nodes|
    ensures var t, node := g.nodes[k], SplicedNode(g, offset, k);
      && Parts(node) == ShiftAll(Parts(t), offset) && (node.Blank? <==> t.Blank?)
      && (DataOf(node) <==> DataOf(t)) && (DataOf(t) ==> node.data == Some(Shift(t.data.value, offset)))
  {
    hide ShiftThing, Rethrow;
    ShiftParts(g.nodes[k], offset);
    RethrowParts(ShiftThing(g.nodes[k], offset), g.at);
  }

  lemma SplicedIs(h: Heap, o: nat, st: State)
    requires o in h.received && h.received[o].root < |h.received[o].nodes|
    ensures var g, r := h.received[o], Splice(h, o, st);
      && r.st.seen == st.seen[o := |st.nodes| + g.root] && |r.st.nodes| == |st.nodes| + |g.nodes| &&
         st.nodes <= r.st.nodes
      && forall k :: 0 <= k < |g.nodes| ==> r.st.nodes[|st.nodes| + k] == SplicedNode(g, |st.nodes|, k)
  {
    hide ShiftThing, Rethrow;
  }

  lemma SplicedNodeOk(h: Heap, o: nat, st: State, k: nat)
    requires o in h.received && ReceivedOk(h.received[o]) && k < |h.received[o].nodes|
    ensures |st.nodes| + k < |Splice(h, o, st).st.nodes| && NodeOk(Splice(h, o, st).st, |st.nodes| + k)
  {
    var g := h.received[o];
    hide Splice, SplicedNode, Parts;
    SplicedIs(h, o, st);
    SplicedParts(g, |st.nodes|, k);
    ShiftedWhole(g.nodes[k], SplicedNode(g, |st.nodes|, k), |g.nodes|, |st.nodes|);
  }

  lemma ShiftedWhole(t: Thing, node: Thing, n: nat, offset: nat)
    requires Within(t, n) && NoFunction(t) && Parts(node) == ShiftAll(Parts(t), offset)
    requires (DataOf(node) <==> DataOf(t)) && (DataOf(t) ==> node.data == Some(Shift(t.data.value, offset)))
    ensures Within(node, offset + n) && NoFunction(node)
  {
    hide Parts;
  }

  lemma SplicedPlaced(h: Heap, o: nat, st: State)
    requires HeapOk(h) && Placed(h, st) && o in h.received && o !in st.seen
    ensures Placed(h, Splice(h, o, st).st)
  {
    var r := Splice(h, o, st);
    assert ReceivedOk(h.received[o]);
    hide Splice, SplicedNode, ReceivedOk, Whole;
    SplicedIs(h, o, st);
    forall p <- r.st.seen ensures Fits(h, r.st, p) { if p != o { assert Fits(h, st, p); } }
    forall p, q | p in r.st.seen && q in r.st.seen && p != q ensures Apart(h, r.st.seen, p, q) {
      if p != o { assert Fits(h, st, p); }
      if q != o { assert Fits(h, st, q); }
      if p != o && q != o { assert Apart(h, st.seen, p, q); }
    }
  }

  lemma Held(h: Heap, st: State, o: nat, i: nat)
    requires Holds(h, st, o, i)
    ensures HasObject(h, st, i)
  {}

  lemma SplicedState(h: Heap, o: nat, st: State)
    requires HeapOk(h) && StateOk(h, st) && o in h.received
    ensures StateOk(h, Splice(h, o, st).st)
  {
    assert ReceivedOk(h.received[o]);
    SplicedIs(h, o, st);
    hide Splice, SplicedNode, ReceivedOk, Whole;
  }

  lemma SplicedFound(h: Heap, o: nat, st: State)
    requires o in h.received && h.received[o].root < |h.received[o].nodes|
    ensures o in Splice(h, o, st).st.seen && SplicedOk(h, Splice(h, o, st).st, o)
  {
    SplicedIs(h, o, st);
    hide Splice, SplicedNode;
  }

  /** Of the objects seen, only the one spliced has nodes from here on. */
  lemma SplicedOne(h: Heap, o: nat, st: State, p: nat)
    requires HeapOk(h) && StateOk(h, st) && o in h.received && o !in st.seen
    ensures StateOk(h, Splice(h, o, st).st)
    ensures var r := Splice(h, o, st).st; p in r.seen && r.seen[p] >= |st.nodes| ==> OneOk(h, r, p)
  {
    SplicedState(h, o, st);
    assert ReceivedOk(h.received[o]);
    SplicedFound(h, o, st);
    SplicedIs(h, o, st);
    hide Splice, SplicedNode, ReceivedOk, HeapOk, ObjectOk, SplicedOk;
  }

  lemma GoodOf(h: Heap, from: nat, later: State)
    requires StateOk(h, later)
    requires forall i: nat :: from <= i < |later.nodes| ==> NodeOk(later, i) && HasObject(h, later, i)
    requires forall o <- later.seen :: later.seen[o] >= from ==> OneOk(h, later, o)
    ensures Good(h, from, later)
  {
    hide NodeOk, HasObject, OneOk;
  }

  lemma SplicedGood(h: Heap, o: nat, st: State)
    requires HeapOk(h) && StateOk(h, st) && o in h.received && o !in st.seen
    ensures StateOk(h, Splice(h, o, st).st) && Good(h, |st.nodes|, Splice(h, o, st).st)
  {
    var r := Splice(h, o, st);
    assert ReceivedOk(h.received[o]);
    SplicedIs(h, o, st);
    SplicedOne(h, o, st, o);
    assert forall i: nat :: |st.nodes| <= i < |r.st.nodes| ==> Holds(h, r.st, o, i);
    hide *;
    forall i: nat | |st.nodes| <= i < |r.st.nodes| ensures NodeOk(r.st, i) && HasObject(h, r.st, i) {
      SplicedNodeOk(h, o, st, i - |st.nodes|);
      Held(h, r.st, o, i);
    }
    forall p <- r.st.seen | r.st.seen[p] >= |st.nodes| ensures OneOk(h, r.st, p) { SplicedOne(h, o, st, p); }
    GoodOf(h, |st.nodes|, r.st);
  }

  // ── Every visit ─────────────────────────────────────────────────

  /** What a visit that did not throw gives. */
  ghost predicate VisitedOk(h: Heap, v: Value, st: State, r: Visited) {
    && StateOk(h, r.st) && Grows(st, r.st) && Placed(h, r.st) && Good(h, |st.nodes|, r.st)
    && (r.result.Some? ==> Known(v, r.st.seen) && r.result == Some(Image(v, r.st.seen)))
  }

  lemma {:induction false} VisitGood(h: Heap, v: Value, st: State)
    requires HeapOk(h) && StateOk(h, st) && InRange(v, |h.objects|) && Placed(h, st)
    ensures Visit(h, v, st).result.Some? ==> VisitedOk(h, v, st, Visit(h, v, st))
    ensures Crosses(h, v) ==> Visit(h, v, st).result.Some?
    decreases |Unseen(h, st)|, 0, 1
  {
    if v.Function? {
      FunctionStops(h);
    } else if v.At? && v.id !in st.seen {
      if v.id in h.received {
        SplicedGood(h, v.id, st);
        SplicedPlaced(h, v.id, st);
        SplicedVisited(h, v.id, st);
      } else {
        ObjectGood(h, v.id, st);
      }
    } else {
      NothingMore(h, st);
    }
    hide *;
  }

  lemma SplicedVisited(h: Heap, o: nat, st: State)
    requires HeapOk(h) && StateOk(h, st) && o in h.received && o !in st.seen
    ensures Visit(h, At(o), st) == Splice(h, o, st)
    ensures var r := Splice(h, o, st);
      StateOk(h, r.st) && Grows(st, r.st) && Known(At(o), r.st.seen) && r.result == Some(Image(At(o), r.st.seen))
  {}

  lemma {:induction false} AllGood(h: Heap, vs: seq<Value>, st: State)
    requires HeapOk(h) && StateOk(h, st) && Placed(h, st) && forall i :: 0 <= i < |vs| ==> InRange(vs[i], |h.objects|)
    ensures var r := VisitAll(h, vs, st);
      r.results.Some? ==>
        && Placed(h, r.st) && Good(h, |st.nodes|, r.st)
        && AllKnown(vs, r.st.seen) && r.results == Some(ImageAll(vs, r.st.seen))
    ensures (forall i :: 0 <= i < |vs| ==> Crosses(h, vs[i])) ==> VisitAll(h, vs, st).results.Some?
    decreases |Unseen(h, st)|, 2, |vs|
  {
    hide Visit, Good, Placed, Crosses, HeapOk, Attempt;
    var r := VisitAll(h, vs, st);
    if vs == [] {
      NothingMore(h, st);
    } else {
      var front := VisitAll(h, vs[..|vs| - 1], st);
      AllGood(h, vs[..|vs| - 1], st);
      if front.results.Some? {
        FewerUnseen(h, st, front.st);
        VisitGood(h, vs[|vs| - 1], front.st);
        if r.results.Some? {
          GoodTrans(h, |st.nodes|, front.st, r.st);
          ImagesLater(vs, front.st.seen, r.st.seen);
        }
      }
    }
  }

  lemma ImagesLater(vs: seq<Value>, seen: map<nat, nat>, later: map<nat, nat>)
    requires vs != [] && AllKnown(vs[..|vs| - 1], seen) && Known(vs[|vs| - 1], later)
    requires forall o <- seen :: o in later && later[o] == seen[o]
    ensures AllKnown(vs, later)
    ensures ImageAll(vs, later) == ImageAll(vs[..|vs| - 1], seen) + [Image(vs[|vs| - 1], later)]
  {
    var front := vs[..|vs| - 1];
    forall i | 0 <= i < |vs| ensures Known(vs[i], later) { if i < |front| { assert Known(front[i], seen); } }
    forall i | 0 <= i < |front| ensures ImageAll(vs, later)[i] == ImageAll(front, seen)[i] {
      assert Known(front[i], seen);
    }
  }

  lemma AttemptGood(h: Heap, v: Value, st: State)
    requires HeapOk(h) && StateOk(h, st) && InRange(v, |h.objects|) && Placed(h, st)
    ensures VisitedOk(h, v, st, Attempt(h, v, st))
    ensures Crosses(h, v) ==> Attempt(h, v, st).result.Some?
    decreases |Unseen(h, st)|, 1, 0
  {
    VisitGood(h, v, st);
    if Visit(h, v, st).result.None? {
      RestoredIs(h, st, Visit(h, v, st).st);
      NothingMore(h, st);
    }
    hide Visit, Good, Placed;
  }

  /** The data visited is the object's, and was visited when it can cross. */
  ghost predicate DataGiven(h: Heap, o: nat, st: State, data: Option<Value>)
    requires o < |h.objects|
  {
    var t := h.objects[o];
    && (data.Some? ==> DataOf(t) && Known(t.data.value, st.seen) && data == Some(Image(t.data.value, st.seen)))
    && (DataOf(t) && Crosses(h, t.data.value) ==> data.Some?)
  }

  /** A node made of what was visited refers to nodes there are. */
  lemma NodeIsWhole(t: Thing, st: State, data: Option<Value>)
    requires !t.Blank? && AllKnown(Parts(t), st.seen) && (forall o <- st.seen :: st.seen[o] < |st.nodes|)
    requires data.Some? ==> DataOf(t) && Known(t.data.value, st.seen) && data == Some(Image(t.data.value, st.seen))
    ensures var node := WithParts(t, ImageAll(Parts(t), st.seen));
      var whole := if node.Error? then node.(data := data, rethrown := []) else node;
      !whole.Blank? && Within(whole, |st.nodes|) && NoFunction(whole)
  {
    var images := ImageAll(Parts(t), st.seen);
    PartsBack(t, images);
    forall i | 0 <= i < |images| ensures InRange(images[i], |st.nodes|) && !images[i].Function? {
      assert Known(Parts(t)[i], st.seen);
    }
  }

  /** And is the object's. */
  lemma NodeIsItsOwn(t: Thing, seen: map<nat, nat>, data: Option<Value>)
    requires AllKnown(Parts(t), seen)
    requires data.Some? ==> DataOf(t) && Known(t.data.value, seen) && data == Some(Image(t.data.value, seen))
    ensures var node := WithParts(t, ImageAll(Parts(t), seen));
      NodeOf(t, if node.Error? then node.(data := data, rethrown := []) else node, seen)
  {
    hide AllKnown, Known, Image;
  }

  lemma FilledNode(h: Heap, o: nat, st: State, id: nat, data: Option<Value>)
    requires HeapOk(h) && StateOk(h, st) && o in st.seen && st.seen[o] == id && o !in h.received
    requires AllKnown(Parts(h.objects[o]), st.seen) && DataGiven(h, o, st, data)
    ensures var t := h.objects[o];
      var later := Filled(st, id, t, ImageAll(Parts(t), st.seen), data);
      StateOk(h, later) && NodeOk(later, id) && OneOk(h, later, o)
  {
    var t := h.objects[o];
    assert !t.Blank?;
    hide Crosses, HeapOk, Whole, AllKnown, Known, Image, Parts, NodeOf, Within, NoFunction, ImageAll;
    NodeIsWhole(t, st, data);
    NodeIsItsOwn(t, st.seen, data);
  }

  /** Filling one object's node leaves every other object's. */
  lemma OthersFilled(h: Heap, o: nat, st: State, later: State, p: nat)
    requires StateOk(h, st) && Placed(h, st) && o in st.seen && o !in h.received && p in st.seen && p != o
    requires OneOk(h, st, p)
    requires later.seen == st.seen && |later.nodes| == |st.nodes|
    requires forall i :: 0 <= i < |st.nodes| && i != st.seen[o] ==> later.nodes[i] == st.nodes[i]
    ensures StateOk(h, later) && OneOk(h, later, p)
  {
    assert Apart(h, st.seen, o, p) && Fits(h, st, p) && Fits(h, st, o);
    hide Placed, SplicedNode, NodeOf, Crosses;
  }

  lemma FilledGood(h: Heap, o: nat, st: State, id: nat, data: Option<Value>)
    requires HeapOk(h) && StateOk(h, st) && o in st.seen && st.seen[o] == id && o !in h.received
    requires Placed(h, st) && Good(h, id + 1, st)
    requires AllKnown(Parts(h.objects[o]), st.seen) && DataGiven(h, o, st, data)
    ensures var t := h.objects[o];
      var later := Filled(st, id, t, ImageAll(Parts(t), st.seen), data);
      StateOk(h, later) && Good(h, id, later)
  {
    var t := h.objects[o];
    var later := Filled(st, id, t, ImageAll(Parts(t), st.seen), data);
    FilledNode(h, o, st, id, data);
    hide HeapOk, AllKnown, DataGiven, OneOk, HasObject, WithParts;
    forall i | id <= i < |later.nodes| ensures NodeOk(later, i) { if i > id { assert NodeOk(st, i); } }
    forall p <- later.seen | later.seen[p] >= id ensures OneOk(h, later, p) {
      if p != o {
        AfterIt(h, st, o, p);
        OthersFilled(h, o, st, later, p);
      }
    }
    forall i: nat | id <= i < |later.nodes| ensures HasObject(h, later, i) {
      if i == id { ItsOwn(h, later, o); } else { HasObjectLater(h, st, later, i); }
    }
  }

  lemma AfterIt(h: Heap, st: State, o: nat, p: nat)
    requires Placed(h, st) && o in st.seen && p in st.seen && p != o && st.seen[p] >= st.seen[o]
    ensures st.seen[p] > st.seen[o]
  {
    assert Apart(h, st.seen, o, p) && Fits(h, st, p) && Fits(h, st, o);
  }

  lemma ItsOwn(h: Heap, st: State, o: nat)
    requires o in st.seen && o !in h.received
    ensures HasObject(h, st, st.seen[o])
  {
    assert Holds(h, st, o, st.seen[o]);
  }

  lemma FilledPlaced(h: Heap, st: State, later: State)
    requires Placed(h, st) && later.seen == st.seen && |later.nodes| == |st.nodes|
    ensures Placed(h, later)
  {
    forall o <- later.seen ensures Fits(h, later, o) { assert Fits(h, st, o); }
  }

  lemma KnownLater(vs: seq<Value>, seen: map<nat, nat>, later: map<nat, nat>)
    requires AllKnown(vs, seen) && forall o <- seen :: o in later && later[o] == seen[o]
    ensures AllKnown(vs, later) && ImageAll(vs, later) == ImageAll(vs, seen)
  {
    forall i | 0 <= i < |vs| ensures Known(vs[i], later) && Image(vs[i], later) == Image(vs[i], seen) {
      assert Known(vs[i], seen);
    }
  }

  /** An object's visit, part by part. */
  lemma VisitIs(h: Heap, o: nat, st: State)
    requires HeapOk(h) && StateOk(h, st) && o < |h.objects| && o !in st.seen && o !in h.received
    ensures var id, t, entered := |st.nodes|, h.objects[o], State(st.nodes + [Blank], st.seen[o := |st.nodes|]);
      && StateOk(h, entered) && Grows(st, entered)
      && (forall i :: 0 <= i < |Parts(t)| ==> InRange(Parts(t)[i], |h.objects|))
      && (DataOf(t) ==> InRange(t.data.value, |h.objects|))
      && var parts := VisitAll(h, Parts(t), entered);
         if parts.results.None? then Visit(h, At(o), st) == Visited(parts.st, None)
         else
           var data := if DataOf(t) then Attempt(h, t.data.value, parts.st) else Visited(parts.st, None);
           && id < |data.st.nodes|
           && Visit(h, At(o), st) == Visited(Filled(data.st, id, t, parts.results.value, data.result), Some(At(id)))
  {
    hide VisitAll, Attempt;
  }

  /** The object's own visit: its parts, then its data when they can cross, then its node. */
  lemma ObjectGood(h: Heap, o: nat, st: State)
    requires HeapOk(h) && StateOk(h, st) && o < |h.objects| && o !in st.seen && o !in h.received && Placed(h, st)
    ensures Visit(h, At(o), st).result.Some? ==> VisitedOk(h, At(o), st, Visit(h, At(o), st))
    ensures Crosses(h, At(o)) ==> Visit(h, At(o), st).result.Some?
    decreases |Unseen(h, st)|, 0, 0
  {
    hide Visit, VisitAll, Attempt, Good, HeapOk, StateOk, Grows, Placed, AllKnown, Parts, Crosses, Known, Image;
    hide VisitedOk, WithParts, DataGiven;
    var id, t := |st.nodes|, h.objects[o];
    var entered := State(st.nodes + [Blank], st.seen[o := id]);
    VisitIs(h, o, st);
    EnteredPlaced(h, st, o);
    FewerUnseen(h, st, entered);
    AllGood(h, Parts(t), entered);
    var parts := VisitAll(h, Parts(t), entered);
    if Crosses(h, At(o)) { PartsCross(h, o); }
    if parts.results.Some? {
      FewerUnseen(h, entered, parts.st);
      var data := if DataOf(t) then Attempt(h, t.data.value, parts.st) else Visited(parts.st, None);
      DataVisited(h, o, parts.st);
      EnteredFilled(h, o, st, parts.st, data.st);
      KnownLater(Parts(t), parts.st.seen, data.st.seen);
      FilledGood(h, o, data.st, id, data.result);
      FilledVisited(h, o, st, data.st, Filled(data.st, id, t, parts.results.value, data.result));
    }
  }

  /** The data of an object visited, if it has any. */
  lemma DataVisited(h: Heap, o: nat, st: State)
    requires HeapOk(h) && StateOk(h, st) && o < |h.objects| && Placed(h, st)
    requires DataOf(h.objects[o]) ==> InRange(h.objects[o].data.value, |h.objects|)
    ensures var t := h.objects[o];
      var data := if DataOf(t) then Attempt(h, t.data.value, st) else Visited(st, None);
      && StateOk(h, data.st) && Grows(st, data.st) && Placed(h, data.st) && Good(h, |st.nodes|, data.st)
      && |st.nodes| <= |data.st.nodes| && (forall p <- st.seen :: p in data.st.seen && data.st.seen[p] == st.seen[p])
      && DataGiven(h, o, data.st, data.result)
    decreases |Unseen(h, st)|, 1, 1
  {
    hide Placed, Good, Attempt, Crosses, HeapOk, StateOk;
    var t := h.objects[o];
    if DataOf(t) { AttemptGood(h, t.data.value, st); } else { NothingMore(h, st); }
  }

  /** What was visited since an object was entered is right, all of it. */
  lemma EnteredFilled(h: Heap, o: nat, st: State, mid: State, later: State)
    requires StateOk(h, st) && StateOk(h, mid) && StateOk(h, later) && o !in st.seen
    requires var entered := State(st.nodes + [Blank], st.seen[o := |st.nodes|]); Grows(entered, mid)
    requires Good(h, |st.nodes| + 1, mid) && Grows(mid, later) && Good(h, |mid.nodes|, later)
    ensures var entered := State(st.nodes + [Blank], st.seen[o := |st.nodes|]); Grows(entered, later)
    ensures Good(h, |st.nodes| + 1, later)
    ensures o in later.seen && later.seen[o] == |st.nodes| && |st.nodes| < |later.nodes|
  {
    hide Good, StateOk;
    assert o in st.seen[o := |st.nodes|];
    GoodTrans(h, |st.nodes| + 1, mid, later);
  }

  lemma EnteredPlaced(h: Heap, st: State, o: nat)
    requires StateOk(h, st) && Placed(h, st) && o !in st.seen && o !in h.received && o < |h.objects|
    ensures Placed(h, State(st.nodes + [Blank], st.seen[o := |st.nodes|]))
  {
    var entered := State(st.nodes + [Blank], st.seen[o := |st.nodes|]);
    forall p <- entered.seen ensures Fits(h, entered, p) { if p != o { assert Fits(h, st, p); } }
    forall p, q | p in entered.seen && q in entered.seen && p != q ensures Apart(h, entered.seen, p, q) {
      if p != o { assert Fits(h, st, p); }
      if q != o { assert Fits(h, st, q); }
      if p != o && q != o { assert Apart(h, st.seen, p, q); }
    }
  }

  lemma FilledVisited(h: Heap, o: nat, st: State, before: State, later: State)
    requires o !in st.seen && StateOk(h, before) && Placed(h, before)
    requires var entered := State(st.nodes + [Blank], st.seen[o := |st.nodes|]); Grows(entered, before)
    requires o in before.seen && before.seen[o] == |st.nodes|
    requires later.seen == before.seen && |later.nodes| == |before.nodes|
    requires forall i :: 0 <= i < |before.nodes| && i != |st.nodes| ==> later.nodes[i] == before.nodes[i]
    requires StateOk(h, later) && Good(h, |st.nodes|, later)
    ensures VisitedOk(h, At(o), st, Visited(later, Some(At(|st.nodes|))))
  {
    FilledPlaced(h, before, later);
    hide Good, StateOk, Placed;
  }

  lemma NothingMore(h: Heap, st: State)
    requires StateOk(h, st)
    ensures Good(h, |st.nodes|, st) && Grows(st, st)
  {}

  /** An attempt that fails leaves the nodes and what was seen exactly as they were. */
  lemma FailedAttemptLeavesNothing(h: Heap, v: Value, st: State)
    requires HeapOk(h) && StateOk(h, st) && InRange(v, |h.objects|)
    ensures Attempt(h, v, st).result.None? <==> Visit(h, v, st).result.None?
    ensures Attempt(h, v, st).result.None? ==> Attempt(h, v, st).st == st
  {
    RestoredIs(h, st, Visit(h, v, st).st);
  }
}
