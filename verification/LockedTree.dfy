/** The packages an SDK build is made of: those its lock says it reaches. */
module LockedTree {
  import opened Options
  import opened Sorting

  /** A locked package: the line it is told as, and the names it depends on. */
  datatype Package = Package(line: string, deps: seq<string>)

  type Lock = map<string, seq<Package>>

  const ROOT := "rutis-sdk"

  // ── What is reached ─────────────────────────────────────────────

  predicate DependsOn(lock: Lock, name: string, dep: string) {
    name in lock && exists i :: 0 <= i < |lock[name]| && dep in lock[name][i].deps
  }

  /** A way from the SDK, each name a dependency of the one before. */
  predicate IsPath(lock: Lock, path: seq<string>) {
    path != [] && path[0] == ROOT && forall i :: 0 < i < |path| ==> DependsOn(lock, path[i - 1], path[i])
  }

  ghost predicate IsReached(lock: Lock, name: string) {
    exists path: seq<string> :: IsPath(lock, path) && path[|path| - 1] == name
  }

  lemma RootReached(lock: Lock)
    ensures IsReached(lock, ROOT)
  {
    assert IsPath(lock, [ROOT]);
  }

  lemma StepReached(lock: Lock, name: string, dep: string)
    requires IsReached(lock, name) && DependsOn(lock, name, dep)
    ensures IsReached(lock, dep)
  {
    var path: seq<string> :| IsPath(lock, path) && path[|path| - 1] == name;
    assert IsPath(lock, path + [dep]);
  }

  /** A set that holds the SDK and what its names depend on holds everything reached. */
  lemma {:induction false} ClosedHoldsPath(lock: Lock, names: set<string>, path: seq<string>)
    requires ROOT in names
    requires (forall name <- names :: forall dep: string :: DependsOn(lock, name, dep) ==> dep in names)
    requires IsPath(lock, path)
    ensures path[|path| - 1] in names
    decreases |path|
  {
    if |path| > 1 {
      var front := path[..|path| - 1];
      assert IsPath(lock, front);
      ClosedHoldsPath(lock, names, front);
    }
  }

  // ── Lines ───────────────────────────────────────────────────────

  function LinesOf(packages: seq<Package>): (lines: seq<string>)
    ensures |lines| == |packages| && forall i :: 0 <= i < |lines| ==> lines[i] == packages[i].line
  {
    seq(|packages|, i requires 0 <= i < |packages| => packages[i].line)
  }

  function DepsOf(packages: seq<Package>): (deps: seq<string>)
    ensures forall dep :: dep in deps <==> exists i :: 0 <= i < |packages| && dep in packages[i].deps
  {
    if packages == [] then []
    else
      var deps := packages[0].deps + DepsOf(packages[1..]);
      assert forall dep :: dep in deps ==> exists i :: 0 <= i < |packages| && dep in packages[i].deps by {
        forall dep | dep in deps ensures exists i :: 0 <= i < |packages| && dep in packages[i].deps {
          if dep !in packages[0].deps {
            var i :| 0 <= i < |packages[1..]| && dep in packages[1..][i].deps;
            assert dep in packages[i + 1].deps;
          }
        }
      }
      deps
  }

  /** The lines of every package of these names. */
  function AllLines(lock: Lock, names: seq<string>): seq<string>
    requires forall name <- names :: name in lock
  {
    if names == [] then [] else LinesOf(lock[names[0]]) + AllLines(lock, names[1..])
  }

  ghost predicate Distinct(names: seq<string>) {
    forall i, j :: 0 <= i < j < |names| ==> names[i] != names[j]
  }

  lemma InTurn(a: seq<string>, b: seq<string>, c: seq<string>)
    ensures a + (b + c) == (a + b) + c
  {}

  lemma {:induction false} AllLinesMore(lock: Lock, names: seq<string>, name: string)
    requires (forall n <- names :: n in lock) && name in lock
    ensures AllLines(lock, names + [name]) == AllLines(lock, names) + LinesOf(lock[name])
  {
    hide LinesOf;
    if names == [] {
      assert names + [name] == [name];
      assert AllLines(lock, [name]) == LinesOf(lock[name]) + AllLines(lock, []);
    } else {
      AllLinesMore(lock, names[1..], name);
      assert (names + [name])[0] == names[0] && (names + [name])[1..] == names[1..] + [name];
      InTurn(LinesOf(lock[names[0]]), AllLines(lock, names[1..]), LinesOf(lock[name]));
    }
  }

  lemma {:induction false} LinesWithout(lock: Lock, names: seq<string>, i: nat)
    requires (forall n <- names :: n in lock) && i < |names|
    ensures forall n <- names[..i] + names[i + 1..] :: n in lock
    ensures multiset(AllLines(lock, names)) ==
      multiset(LinesOf(lock[names[i]])) + multiset(AllLines(lock, names[..i] + names[i + 1..]))
    decreases |names|
  {
    var others := names[..i] + names[i + 1..];
    if i == 0 {
      assert others == names[1..];
    } else {
      LinesWithout(lock, names[1..], i - 1);
      assert others[0] == names[0] && others[1..] == names[1..][..i - 1] + names[1..][i..];
    }
  }

  /** The lines of the same names are the same, whatever order the names come in. */
  lemma {:induction false} SameNamesSameLines(lock: Lock, names: seq<string>, others: seq<string>)
    requires (forall n <- names :: n in lock) && (forall n <- others :: n in lock)
    requires multiset(names) == multiset(others)
    ensures multiset(AllLines(lock, names)) == multiset(AllLines(lock, others))
    decreases |names|
  {
    if names == [] {
      assert |multiset(others)| == 0;
    } else {
      var i := FirstIn(names, others);
      var rest := others[..i] + others[i + 1..];
      LinesWithout(lock, others, i);
      LinesWithout(lock, names, 0);
      assert names[..0] + names[0 + 1..] == names[1..];
      hide AllLines;
      SameNamesSameLines(lock, names[1..], rest);
    }
  }

  /** Two listings of one set of names, each once, hold the same names. */
  lemma {:induction false} OneListing(names: seq<string>, others: seq<string>)
    requires Distinct(names) && Distinct(others) && forall n :: n in names <==> n in others
    ensures multiset(names) == multiset(others)
  {
    forall n ensures multiset(names)[n] == multiset(others)[n] {
      CountDistinct(names, n);
      CountDistinct(others, n);
    }
  }

  lemma {:induction false} CountDistinct(names: seq<string>, n: string)
    requires Distinct(names)
    ensures multiset(names)[n] == if n in names then 1 else 0
    decreases |names|
  {
    if names != [] {
      var front, last := names[..|names| - 1], names[|names| - 1];
      assert names == front + [last];
      CountDistinct(front, n);
    }
  }

  // ── The worklist ────────────────────────────────────────────────

  /** A listing of exactly the names reached, each once. */
  ghost predicate Lists(lock: Lock, names: seq<string>) {
    Distinct(names) && forall n: string :: n in names <==> IsReached(lock, n)
  }

  /** The lines of the packages reached, sorted: none when a name reached is not locked. */
  method LockedSdkTree(lock: Lock) returns (lines: Option<seq<string>>, ghost visited: seq<string>)
    ensures lines.Some? ==>
      Lists(lock, visited) && (forall n <- visited :: n in lock) && lines.value == Sort(AllLines(lock, visited))
    ensures lines.None? <==> exists n: string :: IsReached(lock, n) && n !in lock
  {
    var pending, seen, all := [ROOT], {}, [];
    visited := [];
    RootReached(lock);
    while pending != []
      invariant forall n <- pending :: IsReached(lock, n)
      invariant forall n <- seen :: n in lock && IsReached(lock, n)
      invariant forall n: string :: n in seen <==> n in visited
      invariant Distinct(visited) && (forall n <- visited :: n in lock)
      invariant ROOT in seen || ROOT in pending
      invariant forall n <- seen :: forall dep: string :: DependsOn(lock, n, dep) ==> dep in seen || dep in pending
      invariant all == AllLines(lock, visited)
      decreases lock.Keys - seen, |pending|
    {
      var name := pending[|pending| - 1];
      ghost var before := pending;
      pending := pending[..|pending| - 1];
      assert before == pending + [name];
      if name in seen { continue; }
      if name !in lock { return None, visited; }
      seen := seen + {name};
      AllLinesMore(lock, visited, name);
      visited := visited + [name];
      all := all + LinesOf(lock[name]);
      var deps := DepsOf(lock[name]);
      forall dep <- deps ensures IsReached(lock, dep) { StepReached(lock, name, dep); }
      pending := pending + deps;
    }
    forall n: string | IsReached(lock, n) ensures n in visited {
      var path: seq<string> :| IsPath(lock, path) && path[|path| - 1] == n;
      ClosedHoldsPath(lock, seen, path);
    }
    lines := Some(Sort(all));
  }

  /** The lines do not depend on the order the worklist takes: any listing of the names reached
      gives them. */
  lemma LinesAreCanonical(lock: Lock, visited: seq<string>, names: seq<string>)
    requires Lists(lock, visited) && Lists(lock, names) && (forall n <- visited :: n in lock)
    requires (forall n <- names :: n in lock)
    ensures Sort(AllLines(lock, visited)) == Sort(AllLines(lock, names))
  {
    OneListing(visited, names);
    SameNamesSameLines(lock, visited, names);
    SortsAlike(AllLines(lock, visited), AllLines(lock, names));
  }
}
