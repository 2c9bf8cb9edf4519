/** Texts in order: sorting does not depend on the order they came in. */
module Sorting {
  predicate Before(a: string, b: string) {
    a == [] || (b != [] && (a[0] < b[0] || (a[0] == b[0] && Before(a[1..], b[1..]))))
  }

  /** The two agree up to `i`, and there `a` has the smaller character. */
  predicate DiffersAt(a: string, b: string, i: nat) {
    i < |a| && i < |b| && a[..i] == b[..i] && a[i] < b[i]
  }

  /** The order of a dictionary: a text comes before those it starts, and before those that have a
      greater character where they first differ. */
  lemma {:induction false} DictionaryOrder(a: string, b: string)
    ensures Before(a, b) <==> a <= b || exists i: nat :: DiffersAt(a, b, i)
    decreases |a|
  {
    if a != [] && b != [] {
      if a[0] == b[0] {
        DictionaryOrder(a[1..], b[1..]);
        assert a == [a[0]] + a[1..] && b == [b[0]] + b[1..];
        if i: nat :| DiffersAt(a[1..], b[1..], i) {
          assert a[..i + 1] == [a[0]] + a[1..][..i] && b[..i + 1] == [b[0]] + b[1..][..i];
          assert DiffersAt(a, b, i + 1);
        }
        if i: nat :| DiffersAt(a, b, i) {
          assert i > 0 && a[1..][..i - 1] == a[..i][1..] && b[1..][..i - 1] == b[..i][1..];
          assert DiffersAt(a[1..], b[1..], i - 1);
        }
      } else {
        assert a[0] < b[0] ==> DiffersAt(a, b, 0);
        if i: nat :| DiffersAt(a, b, i) { assert i > 0 ==> a[..i][0] == b[..i][0]; }
      }
    }
  }

  lemma {:induction false} BeforeTotal(a: string, b: string)
    ensures Before(a, b) || Before(b, a)
    ensures Before(a, b) && Before(b, a) ==> a == b
    decreases |a|
  {
    if a != [] && b != [] && a[0] == b[0] {
      BeforeTotal(a[1..], b[1..]);
      assert a == [a[0]] + a[1..] && b == [b[0]] + b[1..];
    }
  }

  lemma {:induction false} BeforeTrans(a: string, b: string, c: string)
    requires Before(a, b) && Before(b, c)
    ensures Before(a, c)
    decreases |a|
  {
    if a != [] && a[0] == b[0] && b[0] == c[0] { BeforeTrans(a[1..], b[1..], c[1..]); }
  }

  predicate IsSorted(s: seq<string>) {
    forall i, j :: 0 <= i < j < |s| ==> Before(s[i], s[j])
  }

  function Insert(s: seq<string>, x: string): seq<string> {
    if s == [] || Before(x, s[0]) then [x] + s else [s[0]] + Insert(s[1..], x)
  }

  function Sort(s: seq<string>): seq<string> {
    if s == [] then [] else Insert(Sort(s[1..]), s[0])
  }

  lemma {:induction false} InsertOk(s: seq<string>, x: string)
    requires IsSorted(s)
    ensures IsSorted(Insert(s, x)) && multiset(Insert(s, x)) == multiset(s) + multiset{x}
    decreases |s|
  {
    if s == [] {
    } else if Before(x, s[0]) {
      forall i | 0 <= i < |s| ensures Before(x, s[i]) { if i > 0 { BeforeTrans(x, s[0], s[i]); } }
    } else {
      BeforeTotal(x, s[0]);
      InsertOk(s[1..], x);
      assert s == [s[0]] + s[1..];
      var rest := Insert(s[1..], x);
      forall i | 0 <= i < |rest| ensures Before(s[0], rest[i]) {
        assert rest[i] in multiset(rest);
        if rest[i] != x { assert rest[i] in multiset(s[1..]); assert rest[i] in s[1..]; }
      }
    }
  }

  lemma {:induction false} SortOk(s: seq<string>)
    ensures IsSorted(Sort(s)) && multiset(Sort(s)) == multiset(s)
    decreases |s|
  {
    if s != [] {
      SortOk(s[1..]);
      InsertOk(Sort(s[1..]), s[0]);
      assert s == [s[0]] + s[1..];
    }
  }

  lemma SortedFirst(s: seq<string>, x: string)
    requires IsSorted(s) && x in s
    ensures Before(s[0], x)
  {
    BeforeTotal(s[0], s[0]);
  }

  lemma SameFirst(s: seq<string>, t: seq<string>)
    requires IsSorted(s) && IsSorted(t) && s != [] && multiset(s) == multiset(t)
    ensures t != [] && s[0] == t[0]
  {
    assert s[0] in multiset(t);
    assert t[0] in multiset(s);
    SortedFirst(t, s[0]);
    SortedFirst(s, t[0]);
    BeforeTotal(s[0], t[0]);
  }

  /** A sorted sequence is known by what is in it. */
  lemma {:induction false} SortedUnique(s: seq<string>, t: seq<string>)
    requires IsSorted(s) && IsSorted(t) && multiset(s) == multiset(t)
    ensures s == t
    decreases |s|
  {
    if s == [] {
      assert |multiset(t)| == 0;
    } else {
      SameFirst(s, t);
      hide Before;
      assert s == [s[0]] + s[1..] && t == [t[0]] + t[1..];
      assert multiset(s[1..]) == multiset(s) - multiset{s[0]};
      assert multiset(t[1..]) == multiset(t) - multiset{t[0]};
      SortedUnique(s[1..], t[1..]);
    }
  }

  /** Two sequences sort alike exactly when they hold the same texts, each as often. */
  lemma SortsAlike(s: seq<string>, t: seq<string>)
    ensures Sort(s) == Sort(t) <==> multiset(s) == multiset(t)
  {
    SortOk(s);
    SortOk(t);
    if multiset(s) == multiset(t) { SortedUnique(Sort(s), Sort(t)); }
  }

  // ── One element less ────────────────────────────────────────────

  lemma WithoutOne<T>(s: seq<T>, i: nat)
    requires i < |s|
    ensures multiset(s[..i] + s[i + 1..]) == multiset(s) - multiset{s[i]}
  {
    assert s == s[..i] + [s[i]] + s[i + 1..];
  }

  /** Where the first of `s` is in `t`, which holds the same; and the rest of both hold the same. */
  lemma FirstIn<T>(s: seq<T>, t: seq<T>) returns (i: nat)
    requires s != [] && multiset(s) == multiset(t)
    ensures i < |t| && t[i] == s[0] && multiset(s[1..]) == multiset(t[..i] + t[i + 1..])
  {
    assert s[0] in multiset(t);
    i :| 0 <= i < |t| && t[i] == s[0];
    WithoutOne(s, 0);
    WithoutOne(t, i);
    assert s[..0] + s[1..] == s[1..];
  }
}
