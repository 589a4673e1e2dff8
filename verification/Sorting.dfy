/** Sorted string lists, as sort.Strings leaves them. */
module Sorting {

  /** Byte-wise order of strings. */
  predicate Less(a: string, b: string) {
    b != "" && (a == "" || a[0] < b[0] || (a[0] == b[0] && Less(a[1..], b[1..])))
  }

  /** The strings agree up to k, where a ends or has the smaller byte. */
  predicate DifferAt(a: string, b: string, k: nat) {
    k <= |a| && k < |b| && a[..k] == b[..k] && (k == |a| || a[k] < b[k])
  }

  /** The order is decided at the first difference, and a proper prefix comes first. */
  lemma {:induction false} LessMeans(a: string, b: string)
    ensures Less(a, b) <==> exists k: nat :: DifferAt(a, b, k)
    decreases |a|
  {
    if a == "" || b == "" || a[0] != b[0] {
      assert Less(a, b) ==> DifferAt(a, b, 0);
    } else {
      LessMeans(a[1..], b[1..]);
      if k: nat :| DifferAt(a[1..], b[1..], k) {
        assert a[..k + 1] == [a[0]] + a[1..][..k] && b[..k + 1] == [b[0]] + b[1..][..k];
        assert DifferAt(a, b, k + 1);
      }
      if k: nat :| DifferAt(a, b, k) {
        assert a[..k][1..] == a[1..][..k - 1] && b[..k][1..] == b[1..][..k - 1];
        assert DifferAt(a[1..], b[1..], k - 1);
      }
    }
  }

  lemma {:induction false} LessIrreflexive(a: string)
    ensures !Less(a, a)
    decreases |a|
  {
    if a != "" {
      LessIrreflexive(a[1..]);
    }
  }

  lemma {:induction false} LessTrichotomy(a: string, b: string)
    ensures Less(a, b) || a == b || Less(b, a)
    ensures !(Less(a, b) && Less(b, a))
    decreases |a|
  {
    if a != "" && b != "" {
      LessTrichotomy(a[1..], b[1..]);
      assert a == [a[0]] + a[1..] && b == [b[0]] + b[1..];
    }
  }

  lemma {:induction false} LessTransitive(a: string, b: string, c: string)
    requires Less(a, b) && Less(b, c)
    ensures Less(a, c)
    decreases |a|
  {
    if a != "" && a[0] == b[0] && b[0] == c[0] {
      LessTransitive(a[1..], b[1..], c[1..]);
    }
  }

  predicate Sorted(xs: seq<string>) {
    forall i, j :: 0 <= i < j < |xs| ==> Less(xs[i], xs[j])
  }

  /** Inserts x into a sorted list that does not have it. */
  method Insert(xs: seq<string>, x: string) returns (ys: seq<string>)
    requires Sorted(xs) && x !in xs
    ensures Sorted(ys) && (forall y :: y in ys <==> y in xs || y == x)
  {
    var n := 0;
    while n < |xs| && Less(xs[n], x)
      invariant n <= |xs| && forall i :: 0 <= i < n ==> Less(xs[i], x)
    {
      n := n + 1;
    }
    ys := xs[..n] + [x] + xs[n..];
    if n < |xs| {
      LessTrichotomy(xs[n], x);
      assert Less(x, xs[n]);
      forall j | n < j < |xs|
        ensures Less(x, xs[j])
      {
        LessTransitive(x, xs[n], xs[j]);
      }
    }
  }

  /** The keys of a Go map, sorted. */
  method SortedKeys(keys: set<string>) returns (xs: seq<string>)
    ensures Sorted(xs) && forall x :: x in xs <==> x in keys
  {
    xs := [];
    var rest := keys;
    while rest != {}
      invariant rest <= keys && Sorted(xs)
      invariant forall x :: x in xs <==> x in keys && x !in rest
      decreases rest
    {
      var x :| x in rest;
      xs := Insert(xs, x);
      rest := rest - {x};
    }
  }

  /** Sorting makes the generated text independent of Go's map order. */
  lemma {:induction false} SortedIsUnique(xs: seq<string>, ys: seq<string>)
    requires Sorted(xs) && Sorted(ys) && forall x :: x in xs <==> x in ys
    ensures xs == ys
    decreases |xs|
  {
    HasFirst(xs);
    HasFirst(ys);
    if xs != [] {
      FirstIsLeast(xs, ys[0]);
      FirstIsLeast(ys, xs[0]);
      LessTrichotomy(xs[0], ys[0]);
      assert xs[0] == ys[0];
      TailElements(xs);
      TailElements(ys);
      SortedIsUnique(xs[1..], ys[1..]);
    }
  }

  lemma {:induction false} HasFirst(xs: seq<string>)
    ensures xs == [] || xs[0] in xs
  {
  }

  lemma {:induction false} FirstIsLeast(xs: seq<string>, x: string)
    requires Sorted(xs) && x in xs
    ensures xs[0] == x || Less(xs[0], x)
  {
  }

  lemma {:induction false} TailElements(xs: seq<string>)
    requires Sorted(xs) && xs != []
    ensures forall x :: x in xs[1..] <==> x in xs && x != xs[0]
  {
    LessIrreflexive(xs[0]);
  }

  lemma {:induction false} SortedIsDistinct(xs: seq<string>, i: nat)
    requires Sorted(xs) && i < |xs|
    ensures xs[i] !in xs[..i]
  {
    LessIrreflexive(xs[i]);
  }
}
