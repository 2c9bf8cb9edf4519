/** The encoder and the decoder of error graphs as they run: nodes and objects filled in place. */
module ErrorEncoder {
  import opened Options
  import G = ErrorGraph

  class Encoder {
    const heap: G.Heap
    var nodes: seq<G.Thing>
    var seen: map<nat, nat>

    ghost function State(): G.State
      reads this
    {
      G.State(nodes, seen)
    }

    constructor (heap: G.Heap)
      ensures this.heap == heap && State() == G.State([], map[])
    {
      this.heap := heap;
      nodes, seen := [], map[];
    }

    /** Visit a value: what stands for it in the graph, or none when it cannot cross. */
    method Visit(v: G.Value) returns (r: Option<G.Value>)
      requires G.HeapOk(heap) && G.StateOk(heap, State()) && G.InRange(v, |heap.objects|)
      modifies this
      ensures G.Visited(State(), r) == G.Visit(heap, v, old(State()))
      decreases |G.Unseen(heap, State())|, 0, 0
    {
      hide G.VisitAll, G.Attempt;
      if v.Function? { return None; }
      if !v.At? { return Some(v); }
      if v.id in seen { return Some(G.At(seen[v.id])); }
      if v.id in heap.received {
        r := Splice(v.id);
        return;
      }
      var id, t := |nodes|, heap.objects[v.id];
      seen := seen[v.id := id];
      nodes := nodes + [G.Blank];
      G.FewerUnseen(heap, old(State()), State());
      var parts := VisitAll(G.Parts(t));
      if parts.None? { return None; }
      ghost var visited := State();
      G.FewerUnseen(heap, G.State(old(nodes) + [G.Blank], old(seen)[v.id := id]), visited);
      var data := None;
      if G.DataOf(t) { data := Attempt(t.data.value); }
      var node := G.WithParts(t, parts.value);
      if node.Error? { node := node.(data := data, rethrown := []); }
      nodes := nodes[id := node];
      r := Some(G.At(id));
    }

    /** Append a graph received before, its references shifted. */
    method Splice(o: nat) returns (r: Option<G.Value>)
      requires o in heap.received && heap.received[o].root < |heap.received[o].nodes|
      modifies this
      ensures G.Visited(State(), r) == G.Splice(heap, o, old(State()))
    {
      var graph, offset := heap.received[o], |nodes|;
      seen := seen[o := offset + graph.root];
      var spliced := [];
      for i := 0 to |graph.nodes|
        invariant |spliced| == i && forall k :: 0 <= k < i ==> spliced[k] == G.ShiftThing(graph.nodes[k], offset)
      {
        spliced := spliced + [G.ShiftThing(graph.nodes[i], offset)];
      }
      assert spliced == G.ShiftNodes(graph.nodes, offset);
      spliced := spliced[graph.root := G.Rethrow(spliced[graph.root], graph.at)];
      nodes := nodes + spliced;
      r := Some(G.At(offset + graph.root));
    }

    method VisitAll(vs: seq<G.Value>) returns (rs: Option<seq<G.Value>>)
      requires G.HeapOk(heap) && G.StateOk(heap, State()) && forall i :: 0 <= i < |vs| ==>
        G.InRange(vs[i], |heap.objects|)
      modifies this
      ensures G.VisitedAll(State(), rs) == G.VisitAll(heap, vs, old(State()))
      decreases |G.Unseen(heap, State())|, 2, |vs|
    {
      hide G.Visit, G.Attempt;
      if vs == [] { return Some([]); }
      var front := VisitAll(vs[..|vs| - 1]);
      if front.None? { return None; }
      G.FewerUnseen(heap, old(State()), State());
      var last := Visit(vs[|vs| - 1]);
      rs := if last.None? then None else Some(front.value + [last.value]);
    }

    /** Visit a value; when it cannot cross, leave no trace of the visit. */
    method Attempt(v: G.Value) returns (r: Option<G.Value>)
      requires G.HeapOk(heap) && G.StateOk(heap, State()) && G.InRange(v, |heap.objects|)
      modifies this
      ensures G.Visited(State(), r) == G.Attempt(heap, v, old(State()))
      ensures r.None? ==> State() == old(State())
      decreases |G.Unseen(heap, State())|, 1, 0
    {
      hide G.Visit, G.VisitAll;
      var mark := |nodes|;
      r := Visit(v);
      if r.Some? { return; }
      ghost var tried := State();
      G.RestoredIs(heap, old(State()), tried);
      nodes := nodes[..mark];
      var left := seen.Keys;
      while left != {}
        invariant left <= seen.Keys <= tried.seen.Keys
        invariant nodes == tried.nodes[..mark]
        invariant forall o <- seen :: seen[o] == tried.seen[o]
        invariant forall o <- tried.seen :: o !in left ==> (o in seen <==> tried.seen[o] < mark)
        decreases left
      {
        var o :| o in left;
        left := left - {o};
        if seen[o] >= mark { seen := seen - {o}; }
      }
      assert State() == G.Restored(tried, mark);
    }
  }

  // ── Rebuilding ──────────────────────────────────────────────────

  /** A value in a rebuilt object: itself, or the object it refers to. */
  datatype Link = Itself(v: G.Value) | To(rebuilt: Rebuilt)

  /** What a node says of its object alone: every reference left out. */
  function Bare(t: G.Thing): G.Thing {
    var bare := G.WithParts(G.Made(t), seq(|G.Parts(G.Made(t))|, _ => G.Undefined));
    if bare.Error? && bare.data.Some? then bare.(data := Some(G.Undefined)) else bare
  }

  /** An object rebuilt: what it is, and the values and objects it holds. */
  class Rebuilt {
    const about: G.Thing
    var parts: seq<Link>
    var data: Option<Link>

    constructor (about: G.Thing)
      ensures this.about == about && parts == [] && data == None
    {
      this.about := about;
      parts, data := [], None;
    }

    /** It is what `node` says, each reference an object of `all`. */
    ghost predicate Is(node: G.Thing, all: seq<Rebuilt>)
      reads this
    {
      about == Bare(node) && parts == LinksOf(G.Parts(node), all) && data == DataOf(node, all)
    }

    /** Fill in what the object refers to. */
    method Fill(node: G.Thing, all: seq<Rebuilt>)
      requires about == Bare(node)
      modifies this
      ensures Is(node, all)
    {
      hide Bare, LinksOf, DataOf;
      parts, data := LinksOf(G.Parts(node), all), DataOf(node, all);
    }
  }

  function LinkOf(v: G.Value, all: seq<Rebuilt>): Link {
    if v.At? && v.id < |all| then To(all[v.id]) else Itself(v)
  }

  function LinksOf(vs: seq<G.Value>, all: seq<Rebuilt>): (links: seq<Link>)
    ensures |links| == |vs| && forall i :: 0 <= i < |vs| ==> links[i] == LinkOf(vs[i], all)
  {
    seq(|vs|, i requires 0 <= i < |vs| => LinkOf(vs[i], all))
  }

  function DataOf(node: G.Thing, all: seq<Rebuilt>): Option<Link> {
    if G.DataOf(node) then Some(LinkOf(node.data.value, all)) else None
  }

  predicate Distinct(all: seq<Rebuilt>) {
    forall i, j :: 0 <= i < j < |all| ==> all[i] != all[j]
  }

  /** An empty object for each node, new and its own. */
  method MakeAll(nodes: seq<G.Thing>) returns (made: Option<seq<Rebuilt>>)
    ensures made.Some? <==> forall i :: 0 <= i < |nodes| ==> !nodes[i].Blank?
    ensures made.Some? ==> |made.value| == |nodes| && Distinct(made.value)
    ensures made.Some? ==> forall o <- made.value :: fresh(o)
    ensures made.Some? ==> forall i :: 0 <= i < |nodes| ==> made.value[i].about == Bare(nodes[i])
  {
    hide Bare;
    var all: seq<Rebuilt> := [];
    for i := 0 to |nodes|
      invariant |all| == i && Distinct(all) && forall o <- all :: fresh(o)
      invariant forall k :: 0 <= k < i ==> !nodes[k].Blank? && all[k].about == Bare(nodes[k])
    {
      if nodes[i].Blank? { return None; }
      var one := new Rebuilt(Bare(nodes[i]));
      all := all + [one];
    }
    made := Some(all);
  }

  /** Rebuild a graph: every object first, empty, then what each refers to. One object is made for
      each node, new and its own, and a reference to a node is one to its object. */
  method Rebuild(g: G.Graph) returns (rebuilt: Option<(seq<Rebuilt>, Link)>)
    ensures rebuilt.Some? <==> G.DecodeGraph(g).Some?
    ensures rebuilt.Some? ==> |rebuilt.value.0| == |g.nodes| && Distinct(rebuilt.value.0)
    ensures rebuilt.Some? ==> forall o <- rebuilt.value.0 :: fresh(o)
    ensures rebuilt.Some? ==>
      forall i :: 0 <= i < |g.nodes| ==> rebuilt.value.0[i].Is(g.nodes[i], rebuilt.value.0)
    ensures rebuilt.Some? ==> rebuilt.value.1 == LinkOf(g.root, rebuilt.value.0)
  {
    hide Bare, LinksOf, DataOf, LinkOf, G.Within, G.NoFunction, G.Made;
    var made := MakeAll(g.nodes);
    if made.None? { return None; }
    var all := made.value;
    for i := 0 to |g.nodes|
      invariant forall k :: 0 <= k < i ==> G.Within(g.nodes[k], |g.nodes|) && G.NoFunction(g.nodes[k])
      invariant forall k :: 0 <= k < i ==> all[k].Is(g.nodes[k], all)
    {
      if !G.Within(g.nodes[i], |g.nodes|) || !G.NoFunction(g.nodes[i]) { return None; }
      assert all[i] in all;
      all[i].Fill(g.nodes[i], all);
    }
    if !G.InRange(g.root, |g.nodes|) || g.root.Function? { return None; }
    rebuilt := Some((all, LinkOf(g.root, all)));
  }
}
