/** When objects shared in what is thrown stay shared in what is rebuilt, and what becomes of an
    error that is thrown on from process to process. */
module ErrorSharing {
  import opened Options
  import opened ErrorGraph
  import opened ErrorTrip
  import opened ErrorPaths

  // ── The objects a graph was rebuilt as ──────────────────────────

  function Rename(v: Value, made: seq<nat>): Value {
    if v.At? && v.id < |made| then At(made[v.id]) else v
  }

  function RenameAll(vs: seq<Value>, made: seq<nat>): (renamed: seq<Value>)
    ensures |renamed| == |vs| && forall i :: 0 <= i < |vs| ==> renamed[i] == Rename(vs[i], made)
  {
    seq(|vs|, i requires 0 <= i < |vs| => Rename(vs[i], made))
  }

  /** The object a node was rebuilt as, its references to the objects of the others. */
  function Renamed(t: Thing, made: seq<nat>): Thing {
    var renamed := WithParts(Made(t), RenameAll(Parts(Made(t)), made));
    if DataOf(t) && renamed.Error? then renamed.(data := Some(Rename(t.data.value, made))) else renamed
  }

  /** `made[k]` is the object node `k` was rebuilt as, and still is as it was then. */
  ghost predicate MadeFrom(h: Heap, nodes: seq<Thing>, made: seq<nat>) {
    && |made| == |nodes|
    && (forall k :: 0 <= k < |made| ==> made[k] < |h.objects| && h.objects[made[k]] == Renamed(nodes[k], made))
    && (forall j, k :: 0 <= j < k < |made| ==> made[j] != made[k])
  }

  /** No error received, and nothing in the graph it came in, was changed since. */
  ghost predicate Intact(h: Heap, made: map<nat, seq<nat>>) {
    forall o <- h.received ::
      o in made && MadeFrom(h, h.received[o].nodes, made[o])
      && h.received[o].root < |made[o]| && made[o][h.received[o].root] == o
  }

  lemma RenamedParts(t: Thing, made: seq<nat>)
    ensures Parts(Renamed(t, made)) == RenameAll(Parts(t), made)
    ensures DataOf(Renamed(t, made)) <==> DataOf(t)
    ensures DataOf(t) ==> Renamed(t, made).data == Some(Rename(t.data.value, made))
  {
    PartsBack(Made(t), RenameAll(Parts(Made(t)), made));
  }

  lemma IntactAt(h: Heap, made: map<nat, seq<nat>>, o: nat, k: nat)
    requires HeapOk(h) && Intact(h, made) && o in h.received && k < |h.received[o].nodes|
    ensures o in made && |made[o]| == |h.received[o].nodes| && made[o][k] < |h.objects|
    ensures h.objects[made[o][k]] == Renamed(h.received[o].nodes[k], made[o])
    ensures Within(h.received[o].nodes[k], |h.received[o].nodes|) && NoFunction(h.received[o].nodes[k])
  {
    assert ReceivedOk(h.received[o]);
    hide Renamed, Within, NoFunction;
  }

  /** What was received can be sent. */
  lemma {:induction false} MadeReach(h: Heap, made: map<nat, seq<nat>>, o: nat, v: Value, path: seq<nat>)
    requires HeapOk(h) && Intact(h, made) && o in h.received && o in made && |made[o]| == |h.received[o].nodes|
    requires InRange(v, |h.received[o].nodes|) && !v.Function?
    ensures Reach(h, Rename(v, made[o]), path) != Some(Function)
    decreases |path|
  {
    if path != [] && v.At? && made[o][v.id] !in h.received {
      var t := h.received[o].nodes[v.id];
      IntactAt(h, made, o, v.id);
      RenamedParts(t, made[o]);
      hide Renamed, Parts, HeapOk, Intact;
      if path[0] < |Parts(t)| { MadeReach(h, made, o, Parts(t)[path[0]], path[1..]); }
    }
  }

  lemma MadeCrosses(h: Heap, made: map<nat, seq<nat>>, o: nat, v: Value)
    requires HeapOk(h) && Intact(h, made) && o in h.received && o in made && |made[o]| == |h.received[o].nodes|
    requires InRange(v, |h.received[o].nodes|) && !v.Function?
    ensures Crosses(h, Rename(v, made[o]))
  {
    forall path: seq<nat> ensures Reach(h, Rename(v, made[o]), path) != Some(Function) {
      MadeReach(h, made, o, v, path);
    }
  }

  /** What of an object rebuilt can cross is what its node refers to, all of it. */
  lemma MadeSends(h: Heap, made: map<nat, seq<nat>>, o: nat, k: nat)
    requires HeapOk(h) && Intact(h, made) && o in h.received && k < |h.received[o].nodes|
    ensures o in made && k < |made[o]| && made[o][k] < |h.objects|
    ensures Sends(h, made[o][k]) == RenameAll(Edges(h.received[o].nodes[k]), made[o])
  {
    var t := h.received[o].nodes[k];
    IntactAt(h, made, o, k);
    RenamedParts(t, made[o]);
    if DataOf(t) { MadeCrosses(h, made, o, t.data.value); }
    hide Renamed, Parts, HeapOk, Intact, Crosses;
    assert Sends(h, made[o][k]) == RenameAll(Edges(t), made[o]);
  }

  // ── Paths through the objects thrown ────────────────────────────

  /** What a value leads to among the objects, by what of them can cross. */
  ghost function Lead(h: Heap, v: Value, path: seq<nat>): Option<Value>
    decreases |path|
  {
    if path == [] then Some(v)
    else if v.At? && v.id < |h.objects| && path[0] < |Sends(h, v.id)| then Lead(h, Sends(h, v.id)[path[0]], path[1..])
    else None
  }

  /** The first error received that a path comes to. */
  ghost function Through(h: Heap, v: Value, path: seq<nat>): Option<nat>
    decreases |path|
  {
    if !v.At? then None
    else if v.id in h.received then Some(v.id)
    else if path == [] || v.id >= |h.objects| || path[0] >= |Sends(h, v.id)| then None
    else Through(h, Sends(h, v.id)[path[0]], path[1..])
  }

  /** The value at a place. */
  function ValueAt(made: map<nat, seq<nat>>, p: Place): Value {
    match p
    case Leaf(v) => v
    case Own(o) => At(o)
    case Inside(o, k) => if o in made && k < |made[o]| then At(made[o][k]) else Undefined
  }

  predicate IsPlace(h: Heap, p: Place) {
    match p
    case Leaf(v) => !v.At?
    case Own(o) => o < |h.objects| && o !in h.received
    case Inside(o, k) => o in h.received && k < |h.received[o].nodes|
  }

  lemma PlaceOfIs(h: Heap, made: map<nat, seq<nat>>, v: Value)
    requires HeapOk(h) && Intact(h, made) && InRange(v, |h.objects|)
    ensures IsPlace(h, PlaceOf(h, v)) && ValueAt(made, PlaceOf(h, v)) == v
  {
    if v.At? && v.id in h.received { assert ReceivedOk(h.received[v.id]); }
    hide MadeFrom;
  }

  lemma SendsInRange(h: Heap, o: nat, i: nat)
    requires HeapOk(h) && o < |h.objects| && i < |Sends(h, o)|
    ensures InRange(Sends(h, o)[i], |h.objects|)
  {
    assert Within(h.objects[o], |h.objects|);
    hide Crosses, Parts;
  }

  lemma EdgesInRange(g: Received, k: nat, i: nat)
    requires ReceivedOk(g) && k < |g.nodes| && i < |Edges(g.nodes[k])|
    ensures InRange(Edges(g.nodes[k])[i], |g.nodes|)
  {
    assert Within(g.nodes[k], |g.nodes|);
    hide Parts;
  }

  /** A path leads, among the objects, to the value at the place it leads to. */
  lemma {:induction false} LeadMatches(h: Heap, made: map<nat, seq<nat>>, p: Place, path: seq<nat>)
    requires HeapOk(h) && Intact(h, made) && IsPlace(h, p)
    ensures var r := LeadsFrom(h, p, path);
      && (r.Some? ==> IsPlace(h, r.value))
      && Lead(h, ValueAt(made, p), path) == if r.Some? then Some(ValueAt(made, r.value)) else None
    decreases |path|
  {
    hide HeapOk, Intact, Sends, Edges;
    if path == [] {
    } else if p.Own? {
      if path[0] < |Sends(h, p.o)| {
        SendsInRange(h, p.o, path[0]);
        PlaceOfIs(h, made, Sends(h, p.o)[path[0]]);
        LeadMatches(h, made, PlaceOf(h, Sends(h, p.o)[path[0]]), path[1..]);
      }
    } else if p.Inside? {
      var g := h.received[p.o];
      MadeSends(h, made, p.o, p.k);
      IntactAt(h, made, p.o, p.k);
      if path[0] < |Edges(g.nodes[p.k])| {
        assert ReceivedOk(g) by { HeapReceived(h, p.o); }
        EdgesInRange(g, p.k, path[0]);
        LeadMatches(h, made, PlaceIn(p.o, Edges(g.nodes[p.k])[path[0]]), path[1..]);
      }
    }
  }

  lemma HeapReceived(h: Heap, o: nat)
    requires HeapOk(h) && o in h.received
    ensures ReceivedOk(h.received[o])
  {}

  /** The error received that a place is in. */
  function In(p: Place): Option<nat> {
    if p.Inside? then Some(p.o) else None
  }

  lemma {:induction false} StaysInside(h: Heap, o: nat, k: nat, path: seq<nat>)
    ensures var r := LeadsFrom(h, Inside(o, k), path); r.Some? && !r.value.Leaf? ==> In(r.value) == Some(o)
    decreases |path|
  {
    hide Edges;
    if path != [] && o in h.received && k < |h.received[o].nodes| && path[0] < |Edges(h.received[o].nodes[k])| {
      var v := Edges(h.received[o].nodes[k])[path[0]];
      if v.At? { StaysInside(h, o, v.id, path[1..]); }
    }
  }

  lemma {:induction false} ThroughIs(h: Heap, v: Value, path: seq<nat>)
    ensures var r := LeadsTo(h, v, path); r.Some? && !r.value.Leaf? ==> Through(h, v, path) == In(r.value)
    decreases |path|
  {
    hide Sends;
    if v.At? {
      if v.id in h.received { StaysInside(h, v.id, h.received[v.id].root, path); }
      else if path != [] && v.id < |h.objects| &&
        path[0] < |Sends(h, v.id)| { ThroughIs(h, Sends(h, v.id)[path[0]], path[1..]); }
    }
  }

  /** A place is known by its value and, if that is an object, by the error received it is in. */
  lemma PlacesApart(h: Heap, made: map<nat, seq<nat>>, p: Place, q: Place)
    requires Intact(h, made) && IsPlace(h, p) && IsPlace(h, q)
    ensures p == q <==> ValueAt(made, p) == ValueAt(made, q) && (ValueAt(made, p).At? ==> In(p) == In(q))
    ensures ValueAt(made, p).At? <==> !p.Leaf?
  {
    if p.Inside? { assert MadeFrom(h, h.received[p.o].nodes, made[p.o]); }
    if q.Inside? { assert MadeFrom(h, h.received[q.o].nodes, made[q.o]); }
    hide Renamed;
  }

  // ── Sharing ─────────────────────────────────────────────────────

  /** Two paths lead to one value and, when it is an object, come to one error received first. */
  ghost predicate SameWay(h: Heap, thrown: Value, path: seq<nat>, other: seq<nat>) {
    && Lead(h, thrown, path) == Lead(h, thrown, other)
    && (Lead(h, thrown, path).Some? && Lead(h, thrown, path).value.At? ==>
       Through(h, thrown, path) == Through(h, thrown, other))
  }

  /** With errors received as they came, two paths meet in what is rebuilt exactly when they meet in
      what was thrown and no error received comes between: an object reached through two of them,
      or through one and past it, is sent once for each. */
  lemma MeetExactly(h: Heap, made: map<nat, seq<nat>>, thrown: Value, path: seq<nat>, other: seq<nat>)
    requires HeapOk(h) && InRange(thrown, |h.objects|) && EncodeError(h, thrown).Some? && Intact(h, made)
    ensures Arrives(h, thrown, path).Some? <==> Lead(h, thrown, path).Some?
    ensures Lead(h, thrown, path).Some? && !Lead(h, thrown, path).value.At? ==>
      Arrives(h, thrown, path) == Lead(h, thrown, path)
    ensures Arrives(h, thrown, path) == Arrives(h, thrown, other) <==> SameWay(h, thrown, path, other)
  {
    var p, q := LeadsTo(h, thrown, path), LeadsTo(h, thrown, other);
    PathsArePreserved(h, thrown, path, other);
    PlaceOfIs(h, made, thrown);
    LeadMatches(h, made, PlaceOf(h, thrown), path);
    LeadMatches(h, made, PlaceOf(h, thrown), other);
    ThroughIs(h, thrown, path);
    ThroughIs(h, thrown, other);
    hide EncodeError, HeapOk, Intact, Arrives, Lead, Through, LeadsFrom, ValueAt, PlaceOf, IsPlace, In;
    if p.Some? { PlacesApart(h, made, p.value, p.value); }
    if p.Some? && q.Some? { PlacesApart(h, made, p.value, q.value); }
  }

  /** No object is come to by two ways that meet different errors received first. */
  ghost predicate OneWayIn(h: Heap, thrown: Value) {
    forall path, other :: Lead(h, thrown, path) == Lead(h, thrown, other) ==> SameWay(h, thrown, path, other)
  }

  ghost predicate SharingKept(h: Heap, thrown: Value)
    requires HeapOk(h) && InRange(thrown, |h.objects|) && EncodeError(h, thrown).Some?
  {
    forall path, other ::
      Arrives(h, thrown, path) == Arrives(h, thrown, other) <==> Lead(h, thrown, path) == Lead(h, thrown, other)
  }

  /** All sharing crosses exactly when no object is reached through two errors received, or both
      through one and without it. */
  lemma SharingExactly(h: Heap, made: map<nat, seq<nat>>, thrown: Value)
    requires HeapOk(h) && InRange(thrown, |h.objects|) && EncodeError(h, thrown).Some? && Intact(h, made)
    ensures SharingKept(h, thrown) <==> OneWayIn(h, thrown)
  {
    hide EncodeError, HeapOk, Intact, Arrives, Lead, SameWay;
    forall path, other
      ensures Arrives(h, thrown, path) == Arrives(h, thrown, other) <==> SameWay(h, thrown, path, other)
    {
      MeetExactly(h, made, thrown, path, other);
    }
    assert forall path, other ::
      SameWay(h, thrown, path, other) ==> Lead(h, thrown, path) == Lead(h, thrown, other) by {
      forall path, other ensures SameWay(h, thrown, path, other) ==> Lead(h, thrown, path) == Lead(h, thrown, other) {
        WayIsLead(h, thrown, path, other);
      }
    }
  }

  lemma WayIsLead(h: Heap, thrown: Value, path: seq<nat>, other: seq<nat>)
    ensures SameWay(h, thrown, path, other) ==> Lead(h, thrown, path) == Lead(h, thrown, other)
  {}

  lemma {:induction false} NoneReceived(h: Heap, v: Value, path: seq<nat>)
    requires h.received == map[]
    ensures Through(h, v, path) == None
    decreases |path|
  {
    hide Sends;
    if v.At? && path != [] && v.id < |h.objects| && path[0] < |Sends(h, v.id)| {
      NoneReceived(h, Sends(h, v.id)[path[0]], path[1..]);
    }
  }

  /** Errors made here keep all their sharing. */
  lemma OwnSharingKept(h: Heap, thrown: Value)
    requires HeapOk(h) && InRange(thrown, |h.objects|) && EncodeError(h, thrown).Some? && h.received == map[]
    ensures SharingKept(h, thrown)
  {
    forall path, other | Lead(h, thrown, path) == Lead(h, thrown, other) ensures SameWay(h, thrown, path, other) {
      NoneReceived(h, thrown, path);
      NoneReceived(h, thrown, other);
    }
    hide EncodeError, HeapOk, Lead, SameWay, SharingKept;
    SharingExactly(h, map[], thrown);
  }

  // ── An error received and one of its causes ─────────────────────

  const OUTER := Error("E", "out", Some(At(1)), None, None, None, [])
  const INNER := Error("E", "in", None, None, None, None, [])

  /** A received error and its cause, aggregated anew. */
  function Aggregated(): Heap {
    Heap([OUTER, INNER, Error("A", "both", None, Some([At(0), At(1)]), None, None, [])],
         map[0 := Received([OUTER, INNER], 0, None), 1 := Received([OUTER, INNER], 1, None)])
  }

  lemma AggregatedOk()
    ensures HeapOk(Aggregated()) && GraphOk([OUTER, INNER])
  {
    var h := Aggregated();
    assert Parts(OUTER) == [At(1)] && Parts(INNER) == [] && Parts(h.objects[2]) == [At(0), At(1)];
    assert ReceivedOk(h.received[0]) && ReceivedOk(h.received[1]);
  }

  lemma AggregatedIntact()
    ensures Intact(Aggregated(), map[0 := [0, 1], 1 := [0, 1]])
  {
    var h, nodes, same := Aggregated(), [OUTER, INNER], [0, 1];
    AggregatedOk();
    assert Within(nodes[0], 2) && Within(nodes[1], 2);
    RenamedSame(OUTER, same);
    RenamedSame(INNER, same);
    hide Renamed, Within;
    assert MadeFrom(h, nodes, same);
  }

  lemma AggregatedSends()
    ensures Sends(Aggregated(), 2) == [At(0), At(1)] && Sends(Aggregated(), 0) == [At(1)]
  {}

  lemma {:induction false} NoFunctions(h: Heap, v: Value, path: seq<nat>)
    requires !v.Function? && forall o :: 0 <= o < |h.objects| ==> NoFunction(h.objects[o])
    ensures Reach(h, v, path) != Some(Function)
    decreases |path|
  {
    if path != [] && v.At? && v.id < |h.objects| && v.id !in h.received && path[0] < |Parts(h.objects[v.id])| {
      NoFunctions(h, Parts(h.objects[v.id])[path[0]], path[1..]);
    }
  }

  /** The cause is one object among those thrown, come to in two ways, and two in what is rebuilt. */
  lemma SharingLost()
    ensures var h, cause, alone := Aggregated(), [0, 0], [1];
      && HeapOk(h) && EncodeError(h, At(2)).Some?
      && Lead(h, At(2), cause) == Lead(h, At(2), alone) == Some(At(1))
      && Arrives(h, At(2), cause) != Arrives(h, At(2), alone)
  {
    var h, cause, alone: seq<nat> := Aggregated(), [0, 0], [1];
    AggregatedOk();
    AggregatedIntact();
    AggregatedSends();
    forall path: seq<nat> ensures Reach(h, At(2), path) != Some(Function) { NoFunctions(h, At(2), path); }
    CrossesExactly(h, At(2));
    hide HeapOk, EncodeError, Intact, Arrives, Sends, Crosses;
    assert cause[1..] == [0] && cause[1..][1..] == [] && alone[1..] == [];
    assert Lead(h, At(0), [0]) == Lead(h, At(1), []);
    MeetExactly(h, map[0 := [0, 1], 1 := [0, 1]], At(2), cause, alone);
  }

  // ── Thrown on ───────────────────────────────────────────────────

  /** What receiving a graph leaves: its objects, each error among them known by its node. */
  function Arrived(nodes: seq<Thing>, at: Option<string>): Heap {
    Heap(seq(|nodes|, i requires 0 <= i < |nodes| => Made(nodes[i])),
         map k: nat | k < |nodes| && nodes[k].Error? :: Received(nodes, k, at))
  }

  lemma ArrivedIntact(nodes: seq<Thing>, at: Option<string>)
    requires GraphOk(nodes)
    ensures HeapOk(Arrived(nodes, at))
    ensures var same := seq(|nodes|, i requires 0 <= i < |nodes| => i);
      Intact(Arrived(nodes, at), map k | k in Arrived(nodes, at).received :: same)
  {
    var h, same := Arrived(nodes, at), seq(|nodes|, i requires 0 <= i < |nodes| => i);
    forall k | 0 <= k < |nodes|
      ensures !h.objects[k].Blank? && Within(h.objects[k], |nodes|) && Renamed(nodes[k], same) == h.objects[k]
    {
      assert Within(nodes[k], |nodes|);
      MadeWithin(nodes[k], |nodes|);
      RenamedSame(nodes[k], same);
    }
    hide Renamed, Made, Within;
    assert MadeFrom(h, nodes, same);
  }

  lemma MadeWithin(t: Thing, n: nat)
    requires Within(t, n)
    ensures Within(Made(t), n)
  {
    assert Parts(Made(t)) == Parts(t);
  }

  lemma RenamedSame(t: Thing, same: seq<nat>)
    requires Within(t, |same|) && forall i :: 0 <= i < |same| ==> same[i] == i
    ensures Renamed(t, same) == Made(t)
  {
    assert Parts(Made(t)) == Parts(t);
    assert RenameAll(Parts(t), same) == Parts(t);
    PartsSame(Made(t));
  }

  lemma PartsSame(t: Thing)
    ensures WithParts(t, Parts(t)) == t
  {}

  /** The graph of an error thrown on, as the process that received `g` sends it. */
  function ThrownOn(g: Graph, at: Option<string>): Option<Graph> {
    if HeapOk(Arrived(g.nodes, at)) && InRange(g.root, |g.nodes|) then EncodeError(Arrived(g.nodes, at), g.root)
    else None
  }

  /** Through one process after another, each adding where it threw the error on. */
  function Across(g: Graph, ats: seq<Option<string>>): Option<Graph> {
    if ats == [] then Some(g)
    else
      var before := Across(g, ats[..|ats| - 1]);
      if before.None? then None else ThrownOn(before.value, ats[|ats| - 1])
  }

  /** The places there is a stack of. */
  function Stacks(ats: seq<Option<string>>): seq<string> {
    if ats == [] then []
    else Stacks(ats[..|ats| - 1]) + if ats[|ats| - 1].Some? then [ats[|ats| - 1].value] else []
  }

  /** The first eight places, or as many as there are; what came with more keeps them. */
  function Places(rethrown: seq<string>, more: seq<string>): seq<string> {
    if |rethrown| + |more| <= MOST_RETHROWN then rethrown + more
    else if |rethrown| <= MOST_RETHROWN then rethrown + more[..MOST_RETHROWN - |rethrown|]
    else rethrown
  }

  lemma ShiftNone(t: Thing)
    ensures ShiftThing(t, 0) == t
  {
    assert ShiftAll(Parts(t), 0) == Parts(t);
    PartsSame(t);
  }

  /** Spliced first, a graph is where it was: only its root is thrown on once more. */
  lemma SplicedFirst(h: Heap, o: nat)
    requires o in h.received && h.received[o].root < |h.received[o].nodes|
    ensures var g, r := h.received[o], Splice(h, o, State([], map[]));
      r.result == Some(At(g.root)) && r.st.nodes == g.nodes[g.root := Rethrow(g.nodes[g.root], g.at)]
  {
    var g := h.received[o];
    hide ShiftThing, Rethrow;
    var spliced := ShiftNodes(g.nodes, 0);
    forall k | 0 <= k < |g.nodes| ensures spliced[k] == g.nodes[k] { ShiftNone(g.nodes[k]); }
    assert spliced == g.nodes;
  }

  lemma VisitReceived(h: Heap, o: nat)
    requires HeapOk(h) && o < |h.objects| && o in h.received
    ensures Visit(h, At(o), State([], map[])) == Splice(h, o, State([], map[]))
  {
    hide Splice, HeapOk;
  }

  /** One process adds one place at the root, and changes nothing else. */
  lemma ThrownOnIs(g: Graph, at: Option<string>)
    requires GraphOk(g.nodes) && g.root.At? && g.root.id < |g.nodes| && g.nodes[g.root.id].Error?
    ensures ThrownOn(g, at) == Some(Graph(g.root, g.nodes[g.root.id := Rethrow(g.nodes[g.root.id], at)]))
  {
    var h := Arrived(g.nodes, at);
    assert h.received[g.root.id] == Received(g.nodes, g.root.id, at);
    ArrivedIntact(g.nodes, at);
    hide Rethrow, HeapOk, Made, Intact, Splice, Visit, GraphOk;
    VisitReceived(h, g.root.id);
    SplicedFirst(h, g.root.id);
  }

  lemma RethrowOk(nodes: seq<Thing>, k: nat, rethrown: seq<string>)
    requires GraphOk(nodes) && k < |nodes| && nodes[k].Error?
    ensures GraphOk(nodes[k := nodes[k].(rethrown := rethrown)])
  {
    var later := nodes[k := nodes[k].(rethrown := rethrown)];
    assert Parts(later[k]) == Parts(nodes[k]);
    forall i | 0 <= i < |later| ensures !later[i].Blank? && Within(later[i], |later|) && NoFunction(later[i]) {
      assert Within(nodes[i], |nodes|) && NoFunction(nodes[i]);
    }
  }

  /** A graph thrown on at these places. */
  function With(g: Graph, places: seq<string>): Graph
    requires g.root.At? && g.root.id < |g.nodes| && g.nodes[g.root.id].Error?
  {
    var k, root := g.root.id, g.nodes[g.root.id];
    Graph(g.root, g.nodes[k := root.(rethrown := Places(root.rethrown, places))])
  }

  lemma WithNone(g: Graph)
    requires g.root.At? && g.root.id < |g.nodes| && g.nodes[g.root.id].Error?
    ensures With(g, []) == g
  {
    var k, root := g.root.id, g.nodes[g.root.id];
    assert Places(root.rethrown, []) == root.rethrown && root.(rethrown := root.rethrown) == root;
    assert g.nodes[k := root] == g.nodes;
  }

  lemma RethrownOnce(root: Thing, ats: seq<Option<string>>)
    requires root.Error? && ats != []
    ensures var before := root.(rethrown := Places(root.rethrown, Stacks(ats[..|ats| - 1])));
      Rethrow(before, ats[|ats| - 1]) == root.(rethrown := Places(root.rethrown, Stacks(ats)))
  {
    OnePlaceMore(root.rethrown, ats);
    hide Stacks, Places;
  }

  lemma Replaced(nodes: seq<Thing>, k: nat, one: Thing, other: Thing)
    requires k < |nodes|
    ensures nodes[k := one][k := other] == nodes[k := other]
  {}

  lemma WithOneMore(g: Graph, ats: seq<Option<string>>)
    requires GraphOk(g.nodes) && g.root.At? && g.root.id < |g.nodes| && g.nodes[g.root.id].Error? && ats != []
    ensures ThrownOn(With(g, Stacks(ats[..|ats| - 1])), ats[|ats| - 1]) == Some(With(g, Stacks(ats)))
  {
    hide GraphOk, ThrownOn, Stacks, Places, Rethrow;
    var k, root, last, front := g.root.id, g.nodes[g.root.id], ats[|ats| - 1], Stacks(ats[..|ats| - 1]);
    var before := root.(rethrown := Places(root.rethrown, front));
    RethrowOk(g.nodes, k, before.rethrown);
    ThrownOnIs(With(g, front), last);
    RethrownOnce(root, ats);
    Replaced(g.nodes, k, before, Rethrow(before, last));
  }

  /** However many processes an error crosses, it comes with the graph it was first sent with,
      unchanged but for where it was thrown on: the first eight such places, in their order. */
  lemma {:induction false} ThrownOnUnchanged(g: Graph, ats: seq<Option<string>>)
    requires GraphOk(g.nodes) && g.root.At? && g.root.id < |g.nodes| && g.nodes[g.root.id].Error?
    ensures Across(g, ats) == Some(With(g, Stacks(ats)))
    decreases |ats|
  {
    hide GraphOk, ThrownOn, With;
    if ats == [] {
      WithNone(g);
    } else {
      ThrownOnUnchanged(g, ats[..|ats| - 1]);
      WithOneMore(g, ats);
    }
  }

  lemma PlacesMore(rethrown: seq<string>, more: seq<string>, place: string)
    ensures var before := Places(rethrown, more);
      Places(rethrown, more + [place]) == if |before| < MOST_RETHROWN then before + [place] else before
  {
    var before, longer := Places(rethrown, more), more + [place];
    if |rethrown| + |longer| <= MOST_RETHROWN {
      assert rethrown + longer == before + [place];
    } else if |rethrown| <= MOST_RETHROWN {
      var n := MOST_RETHROWN - |rethrown|;
      assert longer[..n] == more[..n];
      assert |more| == n ==> more[..n] == more;
    }
  }

  lemma OnePlaceMore(rethrown: seq<string>, ats: seq<Option<string>>)
    requires ats != []
    ensures var front, last := Places(rethrown, Stacks(ats[..|ats| - 1])), ats[|ats| - 1];
      Places(rethrown, Stacks(ats)) == if last.Some? && |front| < MOST_RETHROWN then front + [last.value] else front
  {
    hide Places;
    var front, last := Stacks(ats[..|ats| - 1]), ats[|ats| - 1];
    if last.Some? { PlacesMore(rethrown, front, last.value); } else { assert Stacks(ats) == front; }
  }
}
