/** sort.Strings: lexicographic order on strings and the one sorted
    arrangement of a list. */
module Sorting {
  predicate Le(a: string, b: string) {
    a == [] || (b != [] && (a[0] < b[0] || (a[0] == b[0] && Le(a[1..], b[1..]))))
  }

  lemma LeTotal(a: string, b: string)
    ensures Le(a, b) || Le(b, a)
  {
  }

  lemma LeAntisymmetric(a: string, b: string)
    requires Le(a, b) && Le(b, a)
    ensures a == b
  {
    if a != [] {
      LeAntisymmetric(a[1..], b[1..]);
      assert a == [a[0]] + a[1..] && b == [b[0]] + b[1..];
    }
  }

  lemma LeTransitive(a: string, b: string, c: string)
    requires Le(a, b) && Le(b, c)
    ensures Le(a, c)
  {
  }

  ghost predicate Sorted(xs: seq<string>) {
    forall i, j :: 0 <= i < j < |xs| ==> Le(xs[i], xs[j])
  }

  function Insert(x: string, xs: seq<string>): (r: seq<string>)
    requires Sorted(xs)
    ensures Sorted(r) && multiset(r) == multiset([x]) + multiset(xs)
  {
    if xs == [] then [x]
    else if Le(x, xs[0]) then
      assert forall j :: 0 <= j < |xs| ==> Le(x, xs[j]) by {
        forall j | 0 < j < |xs| ensures Le(x, xs[j]) { LeTransitive(x, xs[0], xs[j]); }
      }
      [x] + xs
    else
      LeTotal(x, xs[0]);
      assert xs == [xs[0]] + xs[1..];
      var t := Insert(x, xs[1..]);
      assert forall j :: 0 <= j < |t| ==> Le(xs[0], t[j]) by {
        forall j | 0 <= j < |t| ensures Le(xs[0], t[j]) {
          assert t[j] in multiset(t);
          assert t[j] == x || t[j] in xs[1..];
        }
      }
      [xs[0]] + t
  }

  function SortStrings(xs: seq<string>): (r: seq<string>)
    ensures Sorted(r) && multiset(r) == multiset(xs)
  {
    if xs == [] then []
    else
      assert xs == [xs[0]] + xs[1..];
      Insert(xs[0], SortStrings(xs[1..]))
  }

  lemma SameHead(a: seq<string>, b: seq<string>)
    requires Sorted(a) && Sorted(b) && multiset(a) == multiset(b) && a != [] && b != []
    ensures a[0] == b[0]
  {
    assert a[0] in multiset(b) && b[0] in multiset(a);
    var i :| 0 <= i < |b| && b[i] == a[0];
    var j :| 0 <= j < |a| && a[j] == b[0];
    if i != 0 && j != 0 { LeAntisymmetric(a[0], b[0]); }
  }

  lemma TailSorted(a: seq<string>)
    requires Sorted(a) && a != []
    ensures Sorted(a[1..]) && multiset(a[1..]) == multiset(a) - multiset{a[0]}
  {
    assert a == [a[0]] + a[1..];
  }

  /** A list has only one sorted arrangement. */
  lemma {:induction false} SortedUnique(a: seq<string>, b: seq<string>)
    requires Sorted(a) && Sorted(b) && multiset(a) == multiset(b)
    ensures a == b
    decreases |a|
  {
    assert |multiset(a)| == |multiset(b)|;
    if a != [] {
      SameHead(a, b);
      var s, t := a[1..], b[1..];
      TailSorted(a);
      TailSorted(b);
      assert a == [a[0]] + s && b == [a[0]] + t;
      SortedUnique(s, t);
    }
  }

  /** Sorting forgets the order the elements came in. */
  lemma SortForgetsOrder(a: seq<string>, b: seq<string>)
    requires multiset(a) == multiset(b)
    ensures SortStrings(a) == SortStrings(b)
  {
    SortedUnique(SortStrings(a), SortStrings(b));
  }

  lemma SortKeepsMembers(xs: seq<string>)
    ensures forall x :: x in SortStrings(xs) <==> x in xs
  {
    forall x ensures x in SortStrings(xs) <==> x in xs {
      assert x in multiset(SortStrings(xs)) <==> x in multiset(xs);
    }
  }
}
